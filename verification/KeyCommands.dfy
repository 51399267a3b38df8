/** KeyCommandHandler: shortcuts with one pending timer, key sequences, and the delay line of
    the volume keys, acting on the timer list they share with the subscribers.

    A key event passes through four stages.  The shortcuts see it first, then the sequences, and
    a sequence that is launched takes the keys of its history away from everyone else.  An event
    that neither takes is dropped if its key is noted as special, held back for a while if it is
    a volume key, and handed to the subscribers otherwise.

    WorldOk says what every stage keeps: each id that a component holds names a live timer made
    for it.  The lemmas follow the stages; each needs to know only what the stage does to the
    timers of one owner. */
module KeyCommands {
  import opened Options
  import opened KeyTypes
  import opened TimerList
  import opened Timers
  import opened Ownership
  import opened KeySequences
  import Shortcuts
  import Subscribers

  const SPECIAL_KEY_DOWN_DELAY := 150

  /** IsSpecialType(keyCode, SUBSCRIBER_BEFORE_DELAY). */
  predicate IsDelayedKey(keyCode: int) { keyCode == KEYCODE_VOLUME_UP || keyCode == KEYCODE_VOLUME_DOWN }

  /** IsSpecialType(keyCode, KEY_DOWN_ACTION). */
  predicate IsSpecialDown(keyCode: int) { IsDelayedKey(keyCode) || keyCode == KEYCODE_POWER }

  /** The handler's state; `shortcuts` in the order of the map.  `launched` records the abilities
      started so far. */
  datatype KeyCommand = KeyCommand(
    shortcuts: seq<Shortcut>, matcher: Matcher, last: ShortcutKey, lastTimerId: int,
    specialKeys: set<int>, specialTimers: map<int, seq<int>>, launched: seq<string>)

  /** The components that share the timer list. */
  datatype World = World(k: KeyCommand, h: Subscribers.Handler, s: Timetable)

  /** How far the clock moves before each reading during one event. */
  datatype Ticks = Ticks(shortcut: nat, sequences: seq<nat>, delay: nat, subscribers: seq<nat>)

  /** ResetLastMatchedKey. */
  function ResetLast(k: KeyCommand): KeyCommand {
    k.(last := k.last.(preKeys := {}, finalKey := -1, keyDownDuration := 0), lastTimerId := -1)
  }

  /** LaunchAbility for a shortcut. */
  function Launch(k: KeyCommand, c: ShortcutKey): KeyCommand {
    ResetLast(k).(launched := k.launched + [c.ability])
  }

  function FirstMatch(ks: seq<Shortcut>, e: KeyEvent): Option<Shortcut> {
    if ks == [] then None
    else if Shortcuts.IsKeyMatch(ks[0], e) then Some(ks[0])
    else FirstMatch(ks[1..], e)
  }

  /** HandleShortKeys: the new state and whether the event was handled. */
  function ShortKeys(k: KeyCommand, s: Timetable, e: KeyEvent, tick: nat): (KeyCommand, Timetable, bool) {
    if k.shortcuts == [] then (k, s, false)
    else if Shortcuts.IsKeyMatch(k.last, e) then (k, s, true)
    else
      var s1 := if k.lastTimerId >= 0 then Remove(s, k.lastTimerId) else s;
      var k1 := ResetLast(k);
      match FirstMatch(k.shortcuts, e)
      case None => (k1, s1, false)
      case Some(c) =>
        if c.keyDownDuration == 0 then (Launch(k1, c), s1, true)
        else if c.triggerType == ACTION_DOWN then
          var (s2, id) := Add(s1, c.keyDownDuration, 1, LaunchShortcut(c), tick);
          if id < 0 then (k1, s2, false) else (k1.(last := c, lastTimerId := id), s2, true)
        else
          var own := OwnItem(e.items, e.keyCode);
          var quick := own.Some? && e.actionTime - own.value.downTime < c.keyDownDuration * 1000;
          (if quick then Launch(k1, c) else k1, s1, quick)
  }

  /** HandleSpecialKeys. */
  function SpecialKeys(keys: set<int>, keyCode: int, action: int): set<int> {
    if action == ACTION_UP then keys - {keyCode}
    else if action == ACTION_DOWN then keys + {keyCode}
    else keys
  }

  function RemoveAll(s: Timetable, ids: seq<int>): Timetable
    decreases |ids|
  {
    if ids == [] then s else RemoveAll(Remove(s, ids[0]), ids[1..])
  }

  /** The ids listed for a delayed key. */
  function Listed(k: KeyCommand, keyCode: int): seq<int> {
    if keyCode in k.specialTimers then k.specialTimers[keyCode] else []
  }

  /** RemoveSubscribedTimer. */
  function DropDelayed(k: KeyCommand, s: Timetable, keyCode: int): (KeyCommand, Timetable) {
    (k.(specialTimers := k.specialTimers - {keyCode}), RemoveAll(s, Listed(k, keyCode)))
  }

  /** What a launch does for one key of the history. */
  function ConsumeOne(w: World, stroke: Stroke): World {
    var c := stroke.keyCode;
    var special := if IsSpecialDown(c) then SpecialKeys(w.k.specialKeys, c, stroke.action) else w.k.specialKeys;
    var (h, s1) := Subscribers.ClearKey(w.h, w.s, c, 0);
    var (k, s2) := DropDelayed(w.k.(specialKeys := special), s1, c);
    World(k, h, s2)
  }

  function Consume(w: World, keys: seq<Pressed>): World
    decreases |keys|
  {
    if keys == [] then w else Consume(ConsumeOne(w, keys[0].stroke), keys[1..])
  }

  /** HandleSequences. */
  function Sequences(w: World, e: KeyEvent, ticks: seq<nat>): (World, bool) {
    var (m, s, launched) := Press(w.k.matcher, w.s, e, ticks);
    var w1 := World(w.k.(matcher := m), w.h, s);
    (if launched then Consume(w1, m.keys) else w1, launched)
  }

  /** The volume-key part of OnHandleEvent. */
  function Delay(w: World, e: KeyEvent, tick: nat): (World, bool) {
    var (s, id) := Add(w.s, SPECIAL_KEY_DOWN_DELAY, 1, DelayedKey(e), tick);
    if id < 0 then (w.(s := s), false)
    else (w.(s := s, k := w.k.(specialTimers := w.k.specialTimers[e.keyCode := Listed(w.k, e.keyCode) + [id]])), true)
  }

  /** OnHandleEvent after the shortcuts and sequences have seen the event. */
  function Rest(w: World, e: KeyEvent, handled: bool, tick: nat): (World, bool) {
    if handled then (w, true)
    else if e.keyCode in w.k.specialKeys then
      (w.(k := w.k.(specialKeys := SpecialKeys(w.k.specialKeys, e.keyCode, e.inputAction))), true)
    else if IsDelayedKey(e.keyCode) then Delay(w, e, tick)
    else (w, false)
  }

  /** OnHandleEvent. */
  function OnHandleEvent(w: World, e: KeyEvent, ticks: Ticks): (World, bool) {
    var (k1, s1, byShortcut) := ShortKeys(w.k, w.s, e, ticks.shortcut);
    var (w2, bySequence) := Sequences(w.(k := k1, s := s1), e, ticks.sequences);
    Rest(w2, e, byShortcut || bySequence, ticks.delay)
  }

  /** HandleKeyEvent: what the key commands leave goes on to the subscribers. */
  function OnKeyEvent(w: World, e: KeyEvent, ticks: Ticks): World {
    var (w1, handled) := OnHandleEvent(w, e, ticks);
    if handled then w1 else Tell(w1, e, ticks.subscribers)
  }

  function Tell(w: World, e: KeyEvent, ticks: seq<nat>): World {
    var (h, s) := Subscribers.OnKey(w.h, w.s, e, ticks);
    w.(h := h, s := s)
  }

  /** A timer's callback, once the timer is off the list. */
  function RunCallback(w: World, cb: Callback, ticks: seq<nat>): World {
    match cb
    case LaunchShortcut(c) => w.(k := Launch(w.k, c))
    case LaunchSequence(q) => w.(k := w.k.(matcher := Cleared(w.k.matcher), launched := w.k.launched + [q.ability]))
    case DelayedKey(e) =>
      var ids := Listed(w.k, e.keyCode);
      var k := if ids == [] then w.k else w.k.(specialTimers := w.k.specialTimers[e.keyCode := ids[1..]]);
      Tell(w.(k := k), e, ticks)
    case Notify(uid, _, _) => w.(h := Subscribers.OnTimer(w.h, uid, 0))
    case Other(_) => w
  }

  // ---------- the timers of each holder ----------

  function OfShortcut(): Item -> bool { (t: Item) => t.callback.LaunchShortcut? }
  function OfDelayed(keyCode: int): Item -> bool {
    (t: Item) => t.callback.DelayedKey? && t.callback.event.keyCode == keyCode
  }

  /** lastMatchedKey_ holds an id exactly when one shortcut launch is pending, under that id. */
  ghost predicate ShortcutOk(k: KeyCommand, s: Timetable) {
    var mine := Keep(s.items, OfShortcut());
    if k.lastTimerId < 0 then k.lastTimerId == -1 && k.last.finalKey == -1 && mine == []
    else k.shortcuts != [] && |mine| == 1 && mine[0].id == k.lastTimerId && mine[0].callback == LaunchShortcut(k.last)
  }

  /** The candidate's id names a live timer made for its sequence. */
  ghost predicate Backed(c: Candidate, s: Timetable) {
    c.timerId == -1 || exists t :: t in s.items && t.id == c.timerId && t.callback == LaunchSequence(c.sequence)
  }

  ghost predicate SequencesOk(cs: seq<Candidate>, s: Timetable) {
    && (forall c | c in cs :: Backed(c, s))
    && (forall i, j | 0 <= i < j < |cs| :: cs[i].timerId == cs[j].timerId ==> cs[i].timerId == -1)
  }

  /** specialTimers_ lists for each key exactly its live delay timers, in firing order. */
  ghost predicate DelaysOk(k: KeyCommand, s: Timetable) {
    forall c: int :: Ids(Keep(s.items, OfDelayed(c))) == Listed(k, c)
  }

  /** Launches and delayed keys are one-shot timers, and the delay line uses one interval. */
  predicate OneShot(t: Item) {
    && (t.callback.LaunchShortcut? || t.callback.LaunchSequence? || t.callback.DelayedKey? ==> t.repeatCount == 1)
    && (t.callback.DelayedKey? ==> t.interval == SPECIAL_KEY_DOWN_DELAY)
  }

  ghost predicate OneShots(s: Timetable) { forall t | t in s.items :: OneShot(t) }

  ghost predicate WorldOk(w: World) {
    && Inv(w.s) && OneShots(w.s)
    && ShortcutOk(w.k, w.s) && SequencesOk(w.k.matcher.filter, w.s) && DelaysOk(w.k, w.s)
    && FilterOk(w.k.matcher) && HistoryOk(w.k.matcher.keys)
    && Subscribers.SubscribersOk(w.h, w.s)
  }

  // ---------- what other owners do leaves a holder's timers alone ----------

  lemma ShortcutFrame(k: KeyCommand, s: Timetable, r: Timetable, o: Owner)
    requires ShortcutOk(k, s) && Only(s, r, o) && o != ShortcutOwner
    ensures ShortcutOk(k, r)
  {
    OnlyKeeps(s, r, o, OfShortcut());
  }

  lemma DelaysFrame(k: KeyCommand, s: Timetable, r: Timetable, o: Owner)
    requires DelaysOk(k, s) && Only(s, r, o) && o != DelayOwner
    ensures DelaysOk(k, r)
  {
    forall c: int ensures Keep(r.items, OfDelayed(c)) == Keep(s.items, OfDelayed(c)) { OnlyKeeps(s, r, o, OfDelayed(c)); }
  }

  lemma SequencesFrame(cs: seq<Candidate>, s: Timetable, r: Timetable, o: Owner)
    requires SequencesOk(cs, s) && Only(s, r, o) && o != SequenceOwner
    ensures SequencesOk(cs, r)
  {
    KeepMembers(s.items, NotOf(o));
    KeepMembers(r.items, NotOf(o));
    forall c | c in cs ensures Backed(c, r) {
      if c.timerId != -1 {
        var t :| t in s.items && t.id == c.timerId && t.callback == LaunchSequence(c.sequence);
        assert t in Keep(s.items, NotOf(o));
        assert t in r.items;
      }
    }
  }

  lemma OneShotsFrame(s: Timetable, r: Timetable, o: Owner)
    requires OneShots(s) && Only(s, r, o)
    requires forall t | t in r.items && OwnerOf(t) == o :: OneShot(t)
    ensures OneShots(r)
  {
    KeepMembers(s.items, NotOf(o));
    KeepMembers(r.items, NotOf(o));
    forall t | t in r.items ensures OneShot(t) {
      if OwnerOf(t) != o { assert t in Keep(r.items, NotOf(o)); }
    }
  }

  /** The subscribers may do what they like with their timers. */
  lemma TheirsOk(w: World, h: Subscribers.Handler, r: Timetable)
    requires WorldOk(w) && Only(w.s, r, SubscriberOwner) && Subscribers.SubscribersOk(h, r)
    ensures WorldOk(w.(h := h, s := r))
  {
    ShortcutFrame(w.k, w.s, r, SubscriberOwner);
    DelaysFrame(w.k, w.s, r, SubscriberOwner);
    SequencesFrame(w.k.matcher.filter, w.s, r, SubscriberOwner);
    OneShotsFrame(w.s, r, SubscriberOwner);
  }

  lemma TellOk(w: World, e: KeyEvent, ticks: seq<nat>)
    requires WorldOk(w)
    ensures WorldOk(Tell(w, e, ticks))
  {
    Subscribers.OnKeyOk(w.h, w.s, e, ticks);
    var (h, s) := Subscribers.OnKey(w.h, w.s, e, ticks);
    TheirsOk(w, h, s);
  }

  // ---------- the pending shortcut ----------

  /** Whatever becomes of the pending shortcut, the other holders keep theirs. */
  lemma ShortcutStep(w: World, k: KeyCommand, r: Timetable)
    requires WorldOk(w) && Only(w.s, r, ShortcutOwner) && ShortcutOk(k, r)
    requires k == w.k.(last := k.last, lastTimerId := k.lastTimerId, launched := k.launched)
    requires forall t | t in r.items && OwnerOf(t) == ShortcutOwner :: OneShot(t)
    ensures WorldOk(w.(k := k, s := r))
  {
    DelaysFrame(w.k, w.s, r, ShortcutOwner);
    assert DelaysOk(k, r) by { assert forall c: int :: Listed(k, c) == Listed(w.k, c); }
    SequencesFrame(w.k.matcher.filter, w.s, r, ShortcutOwner);
    OneShotsFrame(w.s, r, ShortcutOwner);
    Subscribers.SubscribersFrame(w.h, w.s, r, ShortcutOwner);
  }

  /** Removing the pending shortcut's timer, if any. */
  lemma CancelShortcut(k: KeyCommand, s: Timetable)
    requires Inv(s) && ShortcutOk(k, s)
    ensures var r := if k.lastTimerId >= 0 then Remove(s, k.lastTimerId) else s;
            && Only(s, r, ShortcutOwner) && Keep(r.items, OfShortcut()) == []
            && forall t | t in r.items :: t in s.items && OwnerOf(t) != ShortcutOwner
  {
    var mine := Keep(s.items, OfShortcut());
    KeepMembers(s.items, OfShortcut());
    if k.lastTimerId >= 0 {
      var t := mine[0];
      assert t in mine;
      SelectedById(s, OfShortcut(), t);
      RemoveOnly(s, t.id, ShortcutOwner);
      RemoveKeep(s, t.id, OfShortcut());
      assert mine == [t] && [t][1..] == [];
      var r := Remove(s, t.id);
      KeepMembers(r.items, OfShortcut());
      EraseMembers(s.items, t.id);
      forall x | x in r.items ensures OwnerOf(x) != ShortcutOwner { assert x !in Keep(r.items, OfShortcut()); }
    } else {
      forall x | x in s.items ensures OwnerOf(x) != ShortcutOwner { assert x !in mine; }
    }
  }

  lemma ShortKeysOk(w: World, e: KeyEvent, tick: nat)
    requires WorldOk(w)
    ensures var (k, s, handled) := ShortKeys(w.k, w.s, e, tick);
            WorldOk(w.(k := k, s := s))
  {
    var (k, r, handled) := ShortKeys(w.k, w.s, e, tick);
    if w.k.shortcuts != [] && !Shortcuts.IsKeyMatch(w.k.last, e) {
      CancelShortcut(w.k, w.s);
      var s1 := if w.k.lastTimerId >= 0 then Remove(w.s, w.k.lastTimerId) else w.s;
      var m := FirstMatch(w.k.shortcuts, e);
      if m.Some? && m.value.keyDownDuration != 0 && m.value.triggerType == ACTION_DOWN {
        var cb := LaunchShortcut(m.value);
        AddOnly(s1, m.value.keyDownDuration, cb, tick);
        AddKeep(s1, m.value.keyDownDuration, cb, tick, OfShortcut());
        InsertMembers(s1.items, NewItem(s1, m.value.keyDownDuration, cb, tick));
        OnlyTrans(w.s, s1, r, ShortcutOwner);
      }
      ShortcutStep(w, k, r);
    }
  }

  // ---------- the pending sequence launches ----------

  lemma {:induction false} InterruptOk(cs: seq<Candidate>, s: Timetable)
    requires Inv(s) && SequencesOk(cs, s)
    ensures var (f, r) := Interrupt(cs, s);
            && Only(s, r, SequenceOwner)
            && (forall t | t in r.items :: t in s.items)
            && (forall c | c in f :: c.timerId == -1)
    decreases |cs|
  {
    if cs != [] {
      var c := cs[0];
      assert c in cs && Backed(c, s);
      var s1 := if c.timerId >= 0 then Remove(s, c.timerId) else s;
      if c.timerId >= 0 {
        var t :| t in s.items && t.id == c.timerId && t.callback == LaunchSequence(c.sequence);
        IdNamesOne(s.items, t, t);
        RemoveOnly(s, t.id, SequenceOwner);
        EraseMembers(s.items, t.id);
      }
      RestBacked(cs, s, s1);
      InterruptOk(cs[1..], s1);
    }
  }

  lemma RestBacked(cs: seq<Candidate>, s: Timetable, s1: Timetable)
    requires cs != [] && SequencesOk(cs, s)
    requires forall t | t in s.items :: t in s1.items || t.id == cs[0].timerId
    ensures SequencesOk(cs[1..], s1)
  {
    forall c | c in cs[1..] ensures Backed(c, s1) {
      var j :| 0 <= j < |cs| - 1 && cs[1..][j] == c;
      assert cs[j + 1] == c && c in cs && Backed(c, s);
      if c.timerId != -1 {
        assert cs[0].timerId != c.timerId;
        var t :| t in s.items && t.id == c.timerId && t.callback == LaunchSequence(c.sequence);
        assert t in s1.items;
      }
    }
  }

  /** The ids of `cs` were free in `s0` and are backed in `s1`. */
  ghost predicate NewlyArmed(cs: seq<Candidate>, s0: Timetable, s1: Timetable) {
    SequencesOk(cs, s1) && forall c | c in cs :: c.timerId != -1 ==> !HasId(s0.items, c.timerId)
  }

  lemma IdsGrow(s0: Timetable, s1: Timetable, id: int)
    requires forall t | t in s0.items :: t in s1.items
    ensures HasId(s0.items, id) ==> HasId(s1.items, id)
  {
    if HasId(s0.items, id) {
      var i :| 0 <= i < |s0.items| && s0.items[i].id == id;
      assert s0.items[i] in s1.items;
    }
  }

  lemma BackedIsInUse(c: Candidate, s: Timetable)
    requires Backed(c, s)
    ensures c.timerId != -1 ==> HasId(s.items, c.timerId)
  {
  }

  lemma NewlyArmedCons(c: Candidate, rest: seq<Candidate>, s0: Timetable, s1: Timetable, s2: Timetable)
    requires Backed(c, s1) && (c.timerId != -1 ==> !HasId(s0.items, c.timerId))
    requires NewlyArmed(rest, s1, s2)
    requires (forall t | t in s0.items :: t in s1.items) && (forall t | t in s1.items :: t in s2.items)
    ensures NewlyArmed([c] + rest, s0, s2)
  {
    var cs := [c] + rest;
    forall x | x in cs ensures Backed(x, s2) && (x.timerId != -1 ==> !HasId(s0.items, x.timerId)) {
      if x == c {
        if c.timerId != -1 {
          var t :| t in s1.items && t.id == c.timerId && t.callback == LaunchSequence(c.sequence);
          assert t in s2.items;
        }
      } else {
        IdsGrow(s0, s1, x.timerId);
      }
    }
    forall i, j | 0 <= i < j < |cs| && cs[i].timerId == cs[j].timerId ensures cs[i].timerId == -1 {
      assert cs[j] == rest[j - 1] && rest[j - 1] in rest;
      BackedIsInUse(c, s1);
      assert i > 0 ==> cs[i] == rest[i - 1];
    }
  }

  /** A candidate that completes is armed under a fresh id, or fails with -1. */
  lemma AttemptOk(c: Candidate, keys: seq<Pressed>, s: Timetable, tick: nat)
    requires Inv(s) && c.timerId == -1
    ensures var (d, stays, launches, r) := Attempt(c, keys, s, tick);
            && Only(s, r, SequenceOwner)
            && (forall t | t in s.items :: t in r.items)
            && (forall t | t in r.items :: t in s.items || (OneShot(t) && OwnerOf(t) == SequenceOwner))
            && Backed(d, r) && (d.timerId != -1 ==> stays && !HasId(s.items, d.timerId))
  {
    if Completed(keys, c.sequence) {
      var interval := c.sequence.abilityStartDelay / SECONDS_SYSTEM;
      var cb := LaunchSequence(c.sequence);
      AddOnly(s, interval, cb, tick);
      InsertMembers(s.items, NewItem(s, interval, cb, tick));
    }
  }

  lemma {:induction false} ScanOk(cs: seq<Candidate>, keys: seq<Pressed>, s: Timetable, ticks: seq<nat>, i: nat)
    requires Inv(s) && forall c | c in cs :: c.timerId == -1
    ensures var r := Scan(cs, keys, s, ticks, i);
            && Only(s, r.sched, SequenceOwner)
            && (forall t | t in s.items :: t in r.sched.items)
            && (forall t | t in r.sched.items :: t in s.items || (OneShot(t) && OwnerOf(t) == SequenceOwner))
            && NewlyArmed(r.stay, s, r.sched) && (r.stay == [] ==> NewlyArmed(r.all, s, r.sched))
    decreases |cs|
  {
    if cs != [] {
      var (c, stays, launches, s1) := Attempt(cs[0], keys, s, Tick(ticks, i));
      assert cs[0] in cs;
      AttemptOk(cs[0], keys, s, Tick(ticks, i));
      ScanOk(cs[1..], keys, s1, ticks, i + 1);
      var rest := Scan(cs[1..], keys, s1, ticks, i + 1);
      if stays {
        NewlyArmedCons(c, rest.stay, s, s1, rest.sched);
      } else {
        NewlyArmedCons(c.(timerId := -1), rest.stay, s, s1, rest.sched);
        assert ([c] + rest.stay)[1..] == rest.stay;
        DropFirst(c, rest.stay, s, rest.sched);
        if rest.stay == [] { NewlyArmedCons(c, rest.all, s, s1, rest.sched); }
      }
    }
  }

  lemma DropFirst(c: Candidate, rest: seq<Candidate>, s0: Timetable, s1: Timetable)
    requires NewlyArmed([c.(timerId := -1)] + rest, s0, s1)
    ensures NewlyArmed(rest, s0, s1)
  {
    var cs := [c.(timerId := -1)] + rest;
    forall x | x in rest ensures x in cs {}
    forall i, j | 0 <= i < j < |rest| && rest[i].timerId == rest[j].timerId ensures rest[i].timerId == -1 {
      assert cs[i + 1] == rest[i] && cs[j + 1] == rest[j];
    }
  }

  lemma FreshUnarmed(qs: seq<Sequence>)
    ensures forall c | c in Fresh(qs) :: c.timerId == -1
  {
  }

  /** Recording an event interrupts the launches it overtakes; those kept stay backed. */
  lemma RecordOk(m: Matcher, s: Timetable, e: KeyEvent)
    requires Inv(s) && SequencesOk(m.filter, s) && (m.keys == [] ==> m.filter == [])
    ensures var (m1, r, recorded) := Record(m, s, e);
            && Only(s, r, SequenceOwner)
            && (forall t | t in r.items :: t in s.items)
            && SequencesOk(m1.filter, r)
            && (recorded ==> forall c | c in m1.filter :: c.timerId == -1)
  {
    InterruptOk(m.filter, s);
  }

  /** A key event arms launches only under fresh ids, so every id held in the filter names a
      live timer made for its holder, whether the event completes sequences, is skipped, or
      finds no timer free. */
  lemma PressOk(m: Matcher, s: Timetable, e: KeyEvent, ticks: seq<nat>)
    requires Inv(s) && OneShots(s) && SequencesOk(m.filter, s) && (m.keys == [] ==> m.filter == [])
    ensures var (m1, r, launched) := Press(m, s, e, ticks);
            Only(s, r, SequenceOwner) && OneShots(r) && SequencesOk(m1.filter, r)
  {
    if m.sequences != [] {
      var (m1, s1, recorded) := Record(m, s, e);
      RecordOk(m, s, e);
      if recorded {
        FreshUnarmed(m.sequences);
        ScanOk(Candidates(m1), m1.keys, s1, ticks, 0);
        OnlyTrans(s, s1, Scan(Candidates(m1), m1.keys, s1, ticks, 0).sched, SequenceOwner);
      }
    }
  }

  lemma SequenceStep(w: World, m: Matcher, r: Timetable)
    requires WorldOk(w) && Only(w.s, r, SequenceOwner) && OneShots(r)
    requires SequencesOk(m.filter, r) && FilterOk(m) && HistoryOk(m.keys)
    ensures WorldOk(w.(k := w.k.(matcher := m), s := r))
  {
    var k := w.k.(matcher := m);
    ShortcutFrame(w.k, w.s, r, SequenceOwner);
    assert ShortcutOk(k, r);
    DelaysFrame(w.k, w.s, r, SequenceOwner);
    assert DelaysOk(k, r) by { assert forall c: int :: Listed(k, c) == Listed(w.k, c); }
    Subscribers.SubscribersFrame(w.h, w.s, r, SequenceOwner);
  }

  // ---------- the delay line ----------

  /** Whatever becomes of the delay line, the other holders keep theirs. */
  lemma DelayStep(w: World, k: KeyCommand, r: Timetable)
    requires WorldOk(w) && Only(w.s, r, DelayOwner) && DelaysOk(k, r)
    requires k == w.k.(specialKeys := k.specialKeys, specialTimers := k.specialTimers)
    requires forall t | t in r.items && OwnerOf(t) == DelayOwner :: OneShot(t)
    ensures WorldOk(w.(k := k, s := r))
  {
    ShortcutFrame(w.k, w.s, r, DelayOwner);
    assert ShortcutOk(k, r);
    SequencesFrame(w.k.matcher.filter, w.s, r, DelayOwner);
    OneShotsFrame(w.s, r, DelayOwner);
    Subscribers.SubscribersFrame(w.h, w.s, r, DelayOwner);
  }

  lemma IdsSnoc(l: seq<Item>, t: Item)
    ensures Ids(l + [t]) == Ids(l) + [t.id]
  {
  }

  /** A new delay timer is due after all earlier ones, so it goes to the end of its key's list. */
  lemma DelayOk(w: World, e: KeyEvent, tick: nat)
    requires WorldOk(w)
    ensures WorldOk(Delay(w, e, tick).0)
  {
    var cb := DelayedKey(e);
    var (r, id) := Add(w.s, SPECIAL_KEY_DOWN_DELAY, 1, cb, tick);
    var t := NewItem(w.s, SPECIAL_KEY_DOWN_DELAY, cb, tick);
    var k := Delay(w, e, tick).0.k;
    AddOnly(w.s, SPECIAL_KEY_DOWN_DELAY, cb, tick);
    InsertMembers(w.s.items, t);
    forall c: int ensures Ids(Keep(r.items, OfDelayed(c))) == Listed(k, c) {
      AddKeep(w.s, SPECIAL_KEY_DOWN_DELAY, cb, tick, OfDelayed(c));
      var mine := Keep(w.s.items, OfDelayed(c));
      assert Ids(mine) == Listed(w.k, c);
      if id >= 0 && c == e.keyCode {
        KeepMembers(w.s.items, OfDelayed(c));
        forall x | x in mine ensures x.nextCallTime <= t.nextCallTime { assert OneShot(x) && ItemOk(w.s, x); }
        InsertLast(mine, t);
        IdsSnoc(mine, t);
      }
    }
    DelayStep(w, k, r);
  }

  lemma {:induction false} RemoveAllDelayed(s: Timetable, c: int, ids: seq<int>)
    requires Inv(s) && ids == Ids(Keep(s.items, OfDelayed(c)))
    ensures var r := RemoveAll(s, ids);
            && Only(s, r, DelayOwner) && Keep(r.items, OfDelayed(c)) == []
            && (forall d: int | d != c :: Keep(r.items, OfDelayed(d)) == Keep(s.items, OfDelayed(d)))
            && (forall t | t in r.items :: t in s.items)
    decreases |ids|
  {
    var mine := Keep(s.items, OfDelayed(c));
    if ids != [] {
      var t := mine[0];
      var s1 := Remove(s, t.id);
      assert t in mine && ids[0] == t.id;
      SelectedById(s, OfDelayed(c), t);
      RemoveOnly(s, t.id, DelayOwner);
      RemoveKeep(s, t.id, OfDelayed(c));
      EraseMembers(s.items, t.id);
      forall d: int | d != c ensures Keep(s1.items, OfDelayed(d)) == Keep(s.items, OfDelayed(d)) { RemoveOther(s, t, OfDelayed(d)); }
      assert Keep(s1.items, OfDelayed(c)) == mine[1..] && Ids(mine[1..]) == ids[1..];
      RemoveAllDelayed(s1, c, ids[1..]);
      OnlyTrans(s, s1, RemoveAll(s, ids), DelayOwner);
    }
  }

  lemma DropDelayedOk(w: World, c: int)
    requires WorldOk(w)
    ensures var (k, s) := DropDelayed(w.k, w.s, c);
            WorldOk(w.(k := k, s := s))
  {
    var (k, r) := DropDelayed(w.k, w.s, c);
    RemoveAllDelayed(w.s, c, Listed(w.k, c));
    forall d: int ensures Ids(Keep(r.items, OfDelayed(d))) == Listed(k, d) {
      assert Ids(Keep(w.s.items, OfDelayed(d))) == Listed(w.k, d);
    }
    DelayStep(w, k, r);
  }

  lemma SpecialKeysFree(w: World, keys: set<int>)
    requires WorldOk(w)
    ensures WorldOk(w.(k := w.k.(specialKeys := keys)))
  {
    var k := w.k.(specialKeys := keys);
    assert ShortcutOk(k, w.s);
    assert DelaysOk(k, w.s) by { assert forall c: int :: Listed(k, c) == Listed(w.k, c); }
  }

  lemma ConsumeOneOk(w: World, stroke: Stroke)
    requires WorldOk(w)
    ensures WorldOk(ConsumeOne(w, stroke))
  {
    var c := stroke.keyCode;
    var special := if IsSpecialDown(c) then SpecialKeys(w.k.specialKeys, c, stroke.action) else w.k.specialKeys;
    SpecialKeysFree(w, special);
    var w1 := w.(k := w.k.(specialKeys := special));
    Subscribers.ClearKeyOk(w1.h, w1.s, c, 0);
    var (h, s1) := Subscribers.ClearKey(w1.h, w1.s, c, 0);
    TheirsOk(w1, h, s1);
    DropDelayedOk(w1.(h := h, s := s1), c);
  }

  lemma {:induction false} ConsumeOk(w: World, keys: seq<Pressed>)
    requires WorldOk(w)
    ensures WorldOk(Consume(w, keys))
    decreases |keys|
  {
    if keys != [] { ConsumeOneOk(w, keys[0].stroke); ConsumeOk(ConsumeOne(w, keys[0].stroke), keys[1..]); }
  }

  // ---------- every step ----------

  lemma MatchedOk(w: World, e: KeyEvent, ticks: seq<nat>)
    requires WorldOk(w)
    ensures var (m, s, launched) := Press(w.k.matcher, w.s, e, ticks);
            WorldOk(World(w.k.(matcher := m), w.h, s))
  {
    var (m, s, launched) := Press(w.k.matcher, w.s, e, ticks);
    PressOk(w.k.matcher, w.s, e, ticks);
    FilterRefinesRescan(w.k.matcher, w.s, e, ticks);
    RecordKeepsHistory(w.k.matcher, w.s, e);
    SequenceStep(w, m, s);
  }

  lemma SequencesStepOk(w: World, e: KeyEvent, ticks: seq<nat>)
    requires WorldOk(w)
    ensures WorldOk(Sequences(w, e, ticks).0)
  {
    var (m, s, launched) := Press(w.k.matcher, w.s, e, ticks);
    MatchedOk(w, e, ticks);
    ConsumeOk(World(w.k.(matcher := m), w.h, s), m.keys);
  }

  lemma RestOk(w: World, e: KeyEvent, handled: bool, tick: nat)
    requires WorldOk(w)
    ensures WorldOk(Rest(w, e, handled, tick).0)
  {
    SpecialKeysFree(w, SpecialKeys(w.k.specialKeys, e.keyCode, e.inputAction));
    DelayOk(w, e, tick);
  }

  lemma OnHandleEventOk(w: World, e: KeyEvent, ticks: Ticks)
    requires WorldOk(w)
    ensures WorldOk(OnHandleEvent(w, e, ticks).0)
  {
    var (k1, s1, byShortcut) := ShortKeys(w.k, w.s, e, ticks.shortcut);
    var w1 := w.(k := k1, s := s1);
    ShortKeysOk(w, e, ticks.shortcut);
    var (w2, bySequence) := Sequences(w1, e, ticks.sequences);
    SequencesStepOk(w1, e, ticks.sequences);
    RestOk(w2, e, byShortcut || bySequence, ticks.delay);
  }

  lemma {:induction false} OnKeyEventOk(w: World, e: KeyEvent, ticks: Ticks)
    requires WorldOk(w)
    ensures WorldOk(OnKeyEvent(w, e, ticks))
  {
    var (w1, handled) := OnHandleEvent(w, e, ticks);
    OnHandleEventOk(w, e, ticks);
    TellOk(w1, e, ticks.subscribers);
  }
}
