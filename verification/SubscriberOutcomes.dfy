/** What an event does to every subscriber, told from its option and the event.

    Each subscriber that the loop comes to is told at once, waits for a timer, drops what it waits
    for, or stays as it is; which of these is read off its option, and not off the loop. */
module SubscriberOutcomes {
  import opened Options
  import opened KeyTypes
  import opened TimerList
  import opened Ownership
  import opened Subscribers
  import Shortcuts
  import FiniteSets
  import Timers

  // ---------- what an option asks for, as sets ----------

  /** The other keys that the event reports pressed. */
  function OthersPressed(e: KeyEvent): set<int> {
    set i | 0 <= i < |e.items| && e.items[i].pressed && e.items[i].keyCode != e.keyCode :: e.items[i].keyCode
  }

  function CodesOf(items: seq<KeyItem>): seq<int> { seq(|items|, i requires 0 <= i < |items| => items[i].keyCode) }

  function PressedIn(items: seq<KeyItem>): set<int> { set i | 0 <= i < |items| && items[i].pressed :: items[i].keyCode }

  lemma {:induction false} PressedOfMeans(items: seq<KeyItem>)
    requires Shortcuts.Distinct(CodesOf(items))
    ensures Shortcuts.Distinct(PressedOf(items)) && Shortcuts.Elements(PressedOf(items)) == PressedIn(items)
  {
    if items != [] {
      var rest := items[1..];
      assert CodesOf(items)[1..] == CodesOf(rest);
      assert Shortcuts.Distinct(CodesOf(rest)) by { assert forall i | 0 <= i < |rest| :: CodesOf(rest)[i] == CodesOf(items)[i + 1]; }
      PressedOfMeans(rest);
      PressedCons(items);
      if items[0].pressed {
        var ks := PressedOf(rest);
        forall i | 0 <= i < |ks| ensures ks[i] != items[0].keyCode {
          assert ks[i] in PressedIn(rest);
          var j :| 0 <= j < |rest| && rest[j].keyCode == ks[i];
          assert CodesOf(items)[j + 1] == ks[i] && CodesOf(items)[0] == items[0].keyCode;
        }
        ElementsCons(items[0].keyCode, ks);
      }
    }
  }

  lemma PressedCons(items: seq<KeyItem>)
    requires items != []
    ensures PressedIn(items) == (if items[0].pressed then {items[0].keyCode} else {}) + PressedIn(items[1..])
  {
    var rest := items[1..];
    forall k ensures k in PressedIn(items) <==> (items[0].pressed && k == items[0].keyCode) || k in PressedIn(rest) {
      if k in PressedIn(items) {
        var i :| 0 <= i < |items| && items[i].pressed && items[i].keyCode == k;
        if i > 0 { assert rest[i - 1] == items[i]; }
      }
      if k in PressedIn(rest) {
        var i :| 0 <= i < |rest| && rest[i].pressed && rest[i].keyCode == k;
        assert items[i + 1] == rest[i];
      }
    }
  }

  lemma ElementsCons(k: int, ks: seq<int>)
    ensures Shortcuts.Elements([k] + ks) == {k} + Shortcuts.Elements(ks)
  {
    var all := [k] + ks;
    forall x ensures x in Shortcuts.Elements(all) <==> x == k || x in Shortcuts.Elements(ks) {
      if x in Shortcuts.Elements(all) && x != k { var i :| 0 <= i < |all| && all[i] == x; assert ks[i - 1] == x; }
      if x in Shortcuts.Elements(ks) { var i :| 0 <= i < |ks| && ks[i] == x; assert all[i + 1] == x; }
      if x == k { assert all[0] == x; }
    }
  }

  lemma {:induction false} WithoutMeans(ks: seq<int>, k: int)
    requires Shortcuts.Distinct(ks)
    ensures Shortcuts.Distinct(Without(ks, k)) && Shortcuts.Elements(Without(ks, k)) == Shortcuts.Elements(ks) - {k}
  {
    if ks != [] {
      var rest := ks[1..];
      assert ks == [ks[0]] + rest;
      ElementsCons(ks[0], rest);
      assert Shortcuts.Distinct(rest) by { assert forall i | 0 <= i < |rest| :: rest[i] == ks[i + 1]; }
      forall x | x in Shortcuts.Elements(rest) ensures x != ks[0] { var i :| 0 <= i < |rest| && rest[i] == x; assert ks[i + 1] == x; }
      if ks[0] != k {
        WithoutMeans(rest, k);
        var out := Without(rest, k);
        ElementsCons(ks[0], out);
        forall i | 0 <= i < |out| ensures out[i] != ks[0] { assert out[i] in Shortcuts.Elements(out); }
      }
    }
  }

  /** The other pressed keys as the program lists them are those of the event, each once. */
  lemma OthersAre(e: KeyEvent)
    requires Shortcuts.Distinct(Codes(e))
    ensures var others := Without(PressedOf(e.items), e.keyCode);
            Shortcuts.Distinct(others) && Shortcuts.Elements(others) == OthersPressed(e)
  {
    assert CodesOf(e.items) == Codes(e);
    PressedOfMeans(e.items);
    WithoutMeans(PressedOf(e.items), e.keyCode);
    assert PressedIn(e.items) - {e.keyCode} == OthersPressed(e);
  }

  lemma PreKeysAreSet(preKeys: set<int>, pressed: seq<int>)
    requires Shortcuts.Distinct(pressed)
    ensures IsPreKeysMatch(preKeys, pressed) <==> preKeys == {} || preKeys == Shortcuts.Elements(pressed)
  {
    Shortcuts.DistinctSize(pressed);
    var all := Shortcuts.Elements(pressed);
    assert forall i | 0 <= i < |pressed| :: pressed[i] in all;
    if preKeys != {} && IsPreKeysMatch(preKeys, pressed) {
      assert all <= preKeys;
      FiniteSets.SubsetOfSameSize(all, preKeys);
    }
  }

  /** For an event whose key items are distinct, an option fits exactly when its final key is the
      event's and its pre-keys, if it has any, are the other keys pressed, as a set. */
  lemma FitsMeans(o: KeyOption, e: KeyEvent)
    requires Shortcuts.Distinct(Codes(e))
    ensures Fits(o, e) <==> o.finalKey == e.keyCode && (o.preKeys == {} || o.preKeys == OthersPressed(e))
  {
    OthersAre(e);
    PreKeysAreSet(o.preKeys, Without(PressedOf(e.items), e.keyCode));
  }

  /** For a release, moreover, the power key must not come up with a volume key (16 or 17) down. */
  lemma ReleasedMeans(o: KeyOption, e: KeyEvent)
    requires Shortcuts.Distinct(Codes(e))
    ensures Released(o, e) <==>
              && o.finalKey == e.keyCode && (o.preKeys == {} || o.preKeys == OthersPressed(e))
              && (e.keyCode == 18 ==> 16 !in OthersPressed(e) && 17 !in OthersPressed(e))
  {
    FitsMeans(o, e);
    OthersAre(e);
    var others := Without(PressedOf(e.items), e.keyCode);
    assert forall k :: k in others <==> k in Shortcuts.Elements(others);
  }

  lemma {:induction false} OwnItemMeans(items: seq<KeyItem>, keyCode: int)
    ensures OwnItem(items, keyCode).Some? <==> exists i :: 0 <= i < |items| && items[i].keyCode == keyCode
    ensures OwnItem(items, keyCode).Some? ==>
              exists i :: 0 <= i < |items| && items[i] == OwnItem(items, keyCode).value && items[i].keyCode == keyCode
                && forall j | 0 <= j < i :: items[j].keyCode != keyCode
  {
    if items != [] && items[0].keyCode != keyCode {
      var rest := items[1..];
      OwnItemMeans(rest, keyCode);
      if i :| 0 <= i < |items| && items[i].keyCode == keyCode { assert rest[i - 1] == items[i]; }
      if OwnItem(rest, keyCode).Some? {
        var i :| 0 <= i < |rest| && rest[i] == OwnItem(rest, keyCode).value && rest[i].keyCode == keyCode && forall j | 0 <= j < i :: rest[j].keyCode != keyCode;
        assert items[i + 1] == rest[i];
        forall j | 0 <= j < i + 1 ensures items[j].keyCode != keyCode { if j > 0 { assert items[j] == rest[j - 1]; } }
      }
    }
  }

  // ---------- what becomes of each subscriber ----------

  /** The key comes up no later than the option allows, if it limits that. */
  predicate UpInTime(o: KeyOption, e: KeyEvent) {
    || o.finalKeyDownDuration <= 0
    || (OwnItem(e.items, e.keyCode).Some?
        && e.actionTime - OwnItem(e.items, e.keyCode).value.downTime < o.finalKeyDownDuration * 1000)
  }

  /** The subscriber must be told of the event at once. */
  predicate MustTell(o: KeyOption, e: KeyEvent) {
    || (e.action == 2 && o.isFinalKeyDown && Fits(o, e) && o.finalKeyDownDuration <= 0)
    || (e.action == 3 && !o.isFinalKeyDown && Released(o, e) && UpInTime(o, e) && o.finalKeyUpDelay <= 0)
  }

  /** The subscriber must be told of the event after this many milliseconds; 0 for never. */
  function MustWait(o: KeyOption, e: KeyEvent): nat {
    if e.action == 2 && o.isFinalKeyDown && Fits(o, e) && o.finalKeyDownDuration > 0 then o.finalKeyDownDuration
    else if e.action == 3 && !o.isFinalKeyDown && Released(o, e) && UpInTime(o, e) && o.finalKeyUpDelay > 0 then o.finalKeyUpDelay
    else 0
  }

  /** The subscriber must not be told any more of what it waits for. */
  predicate MustDrop(o: KeyOption, e: KeyEvent) {
    e.action == 1 || (o.isFinalKeyDown && ((e.action == 2 && !Fits(o, e)) || e.action == 3))
  }

  /** The one timer of the subscriber, made for event number `at`, due `wait` milliseconds (within 50
      and 4096) after a clock reading between `from` and `to`. */
  predicate WaitsFor(x: Subscriber, mine: seq<Item>, e: KeyEvent, at: nat, wait: nat, from: int, to: int) {
    && |mine| == 1 && x.timerId == mine[0].id && x.keyEvent == Some(e)
    && mine[0].callback == Notify(x.uid, e, at) && mine[0].repeatCount == 1
    && mine[0].interval == (if wait < 50 then 50 else if wait > 4096 then 4096 else wait)
    && from <= mine[0].nextCallTime - mine[0].interval <= to
  }

  /** What a subscriber `x` with timers `mine` becomes by event number `at`. */
  ghost predicate Outcome(x: Subscriber, mine: seq<Item>, y: Subscriber, mine': seq<Item>, e: KeyEvent, at: nat, from: int, to: int, room: bool) {
    && y.uid == x.uid && y.id == x.id && y.session == x.session && y.option == x.option
    && if MustDrop(x.option, e) then y.timerId < 0 && mine' == []
       else if MustWait(x.option, e) > 0 && x.timerId < 0 then
         || WaitsFor(y, mine', e, at, MustWait(x.option, e), from, to)
         || (!room && y.timerId < 0 && mine' == [])
       else y == x && mine' == mine
  }

  lemma VisitTells(x: Subscriber, e: KeyEvent, at: nat, s: Timetable, executing: bool, tick: nat)
    requires !Aborts(x, e)
    ensures VisitOne(x, e, at, s, executing, tick).notify <==> MustTell(x.option, e)
  {
  }

  lemma ArmOutcome(x: Subscriber, e: KeyEvent, before: seq<KeyEvent>, s: Timetable, executing: bool, tick: nat, room: bool)
    requires Timers.Inv(s) && SubscriberOk(x, Mine(s, x.uid), before) && x.timerId < 0 && MustWait(x.option, e) > 0
    requires room ==> |s.items| < 64 && s.clock + tick + 4096 <= INT64_MAX
    ensures var v := Arm(x, e, |before|, s, executing, tick);
            Outcome(x, Mine(s, x.uid), v.subscriber, Mine(v.sched, x.uid), e, |before|, s.clock, v.sched.clock, room)
  {
    var wait := MustWait(x.option, e);
    var cb := Notify(x.uid, e, |before|);
    Timers.AddMeans(s, wait, 1, cb, tick);
    AddKeep(s, wait, cb, tick, For(x.uid));
  }

  lemma VisitOutcome(x: Subscriber, e: KeyEvent, before: seq<KeyEvent>, s: Timetable, executing: bool, tick: nat, room: bool)
    requires Timers.Inv(s) && SubscriberOk(x, Mine(s, x.uid), before) && !Aborts(x, e)
    requires room ==> |s.items| < 64 && s.clock + tick + 4096 <= INT64_MAX
    ensures var v := VisitOne(x, e, |before|, s, executing, tick);
            Outcome(x, Mine(s, x.uid), v.subscriber, Mine(v.sched, x.uid), e, |before|, s.clock, v.sched.clock, room)
  {
    if MustDrop(x.option, e) {
      ClearOk(x, s, executing, before, before);
    } else if MustWait(x.option, e) > 0 && x.timerId < 0 {
      ArmOutcome(x, e, before, s, executing, tick, room);
    }
  }

  // ---------- the loop over the subscribers ----------

  /** The subscribers told at once, in list order, up to where the loop is left. */
  function Told(xs: seq<Subscriber>, e: KeyEvent): seq<(nat, KeyEvent)> {
    if xs == [] || Aborts(xs[0], e) then []
    else (if MustTell(xs[0].option, e) then [(xs[0].uid, e)] else []) + Told(xs[1..], e)
  }

  lemma {:induction false} VisitAllTells(h: Handler, s: Timetable, e: KeyEvent, ticks: seq<nat>, i: nat)
    requires i <= |h.subscribers| && h.processed != []
    ensures VisitAll(h, s, e, ticks, i).0.notified == h.notified + Told(h.subscribers[i..], e)
    decreases |h.subscribers| - i
  {
    if i < |h.subscribers| && !Aborts(h.subscribers[i], e) {
      var v := VisitOne(h.subscribers[i], e, |h.processed| - 1, s, h.hasEventExecuting, Tick(ticks, i));
      var h1 := Visited(h, i, v, e);
      VisitTells(h.subscribers[i], e, |h.processed| - 1, s, h.hasEventExecuting, Tick(ticks, i));
      VisitKeepsUid(h.subscribers[i], e, |h.processed| - 1, s, h.hasEventExecuting, Tick(ticks, i));
      VisitAllTurn(h, s, e, ticks, i, h1, v.sched);
      VisitAllTells(h1, v.sched, e, ticks, i + 1);
      assert h1.subscribers[i + 1..] == h.subscribers[i + 1..] && h.subscribers[i..][1..] == h.subscribers[i + 1..];
    }
  }

  lemma VisitKeepsUid(x: Subscriber, e: KeyEvent, at: nat, s: Timetable, executing: bool, tick: nat)
    requires !Aborts(x, e)
    ensures VisitOne(x, e, at, s, executing, tick).subscriber.uid == x.uid
  {
  }

  /** The loop comes to the j-th subscriber, and does not leave there. */
  predicate Reached(xs: seq<Subscriber>, e: KeyEvent, i: nat, j: nat) {
    i <= j < |xs| && forall k | i <= k <= j :: !Aborts(xs[k], e)
  }

  /** What the j-th subscriber of `h` and its timers become when the loop goes on from `i`. */
  ghost predicate Settled(h: Handler, s: Timetable, r: Handler, u: Timetable, e: KeyEvent, at: nat, i: nat, j: nat, room: bool)
    requires j < |h.subscribers| == |r.subscribers|
  {
    var x := h.subscribers[j];
    if Reached(h.subscribers, e, i, j)
    then Outcome(x, Mine(s, x.uid), r.subscribers[j], Mine(u, x.uid), e, at, s.clock, u.clock, room)
    else r.subscribers[j] == x && Mine(u, x.uid) == Mine(s, x.uid)
  }

  /** A visit takes one id at most and no more time than one clock step. */
  lemma VisitRoom(x: Subscriber, e: KeyEvent, at: nat, s: Timetable, executing: bool, ticks: seq<nat>, i: nat, n: nat)
    requires Timers.Inv(s) && !Aborts(x, e) && Room(s, n + 1, ticks, i)
    ensures Room(VisitOne(x, e, at, s, executing, Tick(ticks, i)).sched, n, ticks, i + 1)
    ensures |s.items| < 64 && s.clock + Tick(ticks, i) + 4096 <= INT64_MAX
  {
    EraseShorter(s.items, x.timerId);
    var duration := if x.option.isFinalKeyDown then x.option.finalKeyDownDuration else x.option.finalKeyUpDelay;
    InsertLonger(s.items, NewItem(s, duration, Notify(x.uid, e, at), Tick(ticks, i)));
  }

  lemma {:induction false} EraseShorter(l: seq<Item>, id: int)
    ensures |Erase(l, id)| <= |l|
  {
    if l != [] && l[0].id != id { EraseShorter(l[1..], id); }
  }

  lemma {:induction false} InsertLonger(l: seq<Item>, t: Item)
    ensures |Insert(l, t)| == |l| + 1
  {
    if l != [] && l[0].nextCallTime <= t.nextCallTime { InsertLonger(l[1..], t); }
  }

  /** One turn of the loop settles one subscriber; the turns that follow leave it alone. */
  lemma SettledTurn(h: Handler, s: Timetable, h1: Handler, s1: Timetable, r: Handler, u: Timetable, e: KeyEvent, at: nat, i: nat, j: nat, room: bool)
    requires i < |h.subscribers| == |h1.subscribers| == |r.subscribers| && j < |h.subscribers|
    requires !Aborts(h.subscribers[i], e) && s.clock <= s1.clock <= u.clock
    requires h1.subscribers == h.subscribers[i := h1.subscribers[i]] && h1.subscribers[i].uid == h.subscribers[i].uid
    requires j != i ==> Mine(s1, h.subscribers[j].uid) == Mine(s, h.subscribers[j].uid)
    requires var x := h.subscribers[i];
             Outcome(x, Mine(s, x.uid), h1.subscribers[i], Mine(s1, x.uid), e, at, s.clock, s1.clock, room)
    requires Settled(h1, s1, r, u, e, at, i + 1, j, room)
    ensures Settled(h, s, r, u, e, at, i, j, room)
  {
    if j > i {
      assert Reached(h.subscribers, e, i, j) <==> Reached(h1.subscribers, e, i + 1, j) by {
        assert forall k | i < k < |h.subscribers| :: h1.subscribers[k] == h.subscribers[k];
      }
    }
  }

  /** One turn of the loop, which leads to `h1` and `s1`. */
  lemma TurnSettles(h: Handler, s: Timetable, e: KeyEvent, ticks: seq<nat>, i: nat, before: seq<KeyEvent>, room: bool)
    returns (h1: Handler, s1: Timetable)
    requires i < |h.subscribers| && !Aborts(h.subscribers[i], e) && h.processed == before + [e]
    requires Timers.Inv(s) && HandlerOk(h, s, before, i) && (room ==> Room(s, |h.subscribers| - i, ticks, i))
    ensures |h1.subscribers| == |h.subscribers| && h1.processed == h.processed && s1.clock >= s.clock
    ensures VisitAll(h, s, e, ticks, i) == VisitAll(h1, s1, e, ticks, i + 1)
    ensures Timers.Inv(s1) && HandlerOk(h1, s1, before, i + 1) && (room ==> Room(s1, |h.subscribers| - i - 1, ticks, i + 1))
    ensures h1.subscribers == h.subscribers[i := h1.subscribers[i]] && h1.subscribers[i].uid == h.subscribers[i].uid
    ensures forall u: nat | u != h.subscribers[i].uid :: Mine(s1, u) == Mine(s, u)
    ensures var x := h.subscribers[i];
            Outcome(x, Mine(s, x.uid), h1.subscribers[i], Mine(s1, x.uid), e, |before|, s.clock, s1.clock, room)
  {
    var x := h.subscribers[i];
    var v := VisitOne(x, e, |before|, s, h.hasEventExecuting, Tick(ticks, i));
    h1, s1 := Visited(h, i, v, e), v.sched;
    if room { VisitRoom(x, e, |before|, s, h.hasEventExecuting, ticks, i, |h.subscribers| - i - 1); }
    VisitOutcome(x, e, before, s, h.hasEventExecuting, Tick(ticks, i), room);
    VisitOneOk(x, e, s, h.hasEventExecuting, Tick(ticks, i), before);
    VisitedOk(h, s, i, v.subscriber, v.sched, before, h1);
    VisitAllTurn(h, s, e, ticks, i, h1, v.sched);
  }

  ghost predicate AllSettled(h: Handler, s: Timetable, r: Handler, u: Timetable, e: KeyEvent, at: nat, i: nat, room: bool) {
    |r.subscribers| == |h.subscribers| && forall j | 0 <= j < |h.subscribers| :: Settled(h, s, r, u, e, at, i, j, room)
  }

  /** Where the loop ends or is left nothing more changes. */
  lemma SettledAtEnd(h: Handler, s: Timetable, e: KeyEvent, at: nat, i: nat, room: bool)
    requires i < |h.subscribers| ==> Aborts(h.subscribers[i], e)
    ensures AllSettled(h, s, h, s, e, at, i, room)
  {
    assert forall j: nat | i <= j < |h.subscribers| :: !Reached(h.subscribers, e, i, j);
  }

  lemma {:induction false} VisitAllSettles(h: Handler, s: Timetable, e: KeyEvent, ticks: seq<nat>, i: nat, before: seq<KeyEvent>, room: bool, r: Handler, u: Timetable)
    requires i <= |h.subscribers| && h.processed == before + [e] && Timers.Inv(s) && HandlerOk(h, s, before, i)
    requires (room ==> Room(s, |h.subscribers| - i, ticks, i)) && (r, u) == VisitAll(h, s, e, ticks, i)
    ensures u.clock >= s.clock && AllSettled(h, s, r, u, e, |before|, i, room)
    decreases |h.subscribers| - i
  {
    if i < |h.subscribers| && !Aborts(h.subscribers[i], e) {
      var h1, s1 := TurnSettles(h, s, e, ticks, i, before, room);
      VisitAllSettles(h1, s1, e, ticks, i + 1, before, room, r, u);
      AllSettledTurn(h, s, h1, s1, r, u, e, |before|, i, i + 1, room);
    } else {
      SettledAtEnd(h, s, e, |before|, i, room);
    }
  }

  lemma AllSettledTurn(h: Handler, s: Timetable, h1: Handler, s1: Timetable, r: Handler, u: Timetable, e: KeyEvent, at: nat, i: nat, next: nat, room: bool)
    requires i < |h.subscribers| == |h1.subscribers| && UidsOk(h) && next == i + 1
    requires !Aborts(h.subscribers[i], e) && s.clock <= s1.clock <= u.clock
    requires h1.subscribers == h.subscribers[i := h1.subscribers[i]] && h1.subscribers[i].uid == h.subscribers[i].uid
    requires forall u: nat | u != h.subscribers[i].uid :: Mine(s1, u) == Mine(s, u)
    requires var x := h.subscribers[i];
             Outcome(x, Mine(s, x.uid), h1.subscribers[i], Mine(s1, x.uid), e, at, s.clock, s1.clock, room)
    requires AllSettled(h1, s1, r, u, e, at, next, room)
    ensures AllSettled(h, s, r, u, e, at, i, room)
  {
    forall j | 0 <= j < |h.subscribers| ensures Settled(h, s, r, u, e, at, i, j, room) {
      if j != i { assert h.subscribers[j].uid != h.subscribers[i].uid; }
      SettledTurn(h, s, h1, s1, r, u, e, at, i, j, room);
    }
  }

  // ---------- a whole event ----------

  /** An event that does not repeat the one in progress tells exactly the subscribers that must be
      told at once, each once and in list order, up to where the loop is left. */
  lemma OnKeyTells(h: Handler, s: Timetable, e: KeyEvent, ticks: seq<nat>)
    ensures OnKey(h, s, e, ticks).0.notified == h.notified + if IsRepeated(h, e) then [] else Told(h.subscribers, e)
  {
    if !IsRepeated(h, e) {
      var h1 := h.(keyEvent := Some(e), processed := h.processed + [e],
                   hasEventExecuting := h.hasEventExecuting && e.action != ACTION_UP && e.action != ACTION_CANCEL);
      VisitAllTells(h1, s, e, ticks, 0);
      assert h1.subscribers[0..] == h.subscribers;
    }
  }

  /** The same event makes every subscriber that the loop comes to drop what it waits for, wait, or
      stay as it is, as its option and the event demand; if there are ids enough and no deadline
      overflows, it gets the timer it must wait for.  The others stay as they are. */
  lemma OnKeySettles(h: Handler, s: Timetable, e: KeyEvent, ticks: seq<nat>, room: bool)
    requires SubscribersOk(h, s) && !IsRepeated(h, e) && (room ==> Room(s, |h.subscribers|, ticks, 0))
    ensures var (r, u) := OnKey(h, s, e, ticks);
            AllSettled(h, s, r, u, e, |h.processed|, 0, room)
  {
    var h1 := h.(keyEvent := Some(e), processed := h.processed + [e],
                 hasEventExecuting := h.hasEventExecuting && e.action != ACTION_UP && e.action != ACTION_CANCEL);
    assert HandlerOk(h1, s, h.processed, 0);
    var (r, u) := OnKey(h, s, e, ticks);
    VisitAllSettles(h1, s, e, ticks, 0, h.processed, room, r, u);
    forall j | 0 <= j < |h.subscribers| ensures Settled(h, s, r, u, e, |h.processed|, 0, j, room) {
      assert Settled(h1, s, r, u, e, |h.processed|, 0, j, room);
    }
  }

  /** A release is withheld from what follows exactly if it repeats the one in progress, or the loop
      is not left early and some subscriber must be told of it, at once or later. */
  lemma UpHandledIff(h: Handler, e: KeyEvent)
    requires e.action == ACTION_UP
    ensures Handled(h, e) <==>
              || IsRepeated(h, e)
              || (NoneAborts(h.subscribers, e)
                  && exists i :: 0 <= i < |h.subscribers| && (MustTell(h.subscribers[i].option, e) || MustWait(h.subscribers[i].option, e) > 0))
  {
    assert forall i | 0 <= i < |h.subscribers| ::
        Answers(h.subscribers[i], e) <==> MustTell(h.subscribers[i].option, e) || MustWait(h.subscribers[i].option, e) > 0;
  }

  // ---------- which events are skipped ----------

  /** An event is skipped exactly while some event is in progress and it equals the last one seen in
      key code, action and the keys it reports. */
  lemma RepeatedMeans(h: Handler, e: KeyEvent)
    requires Shortcuts.Distinct(Codes(e)) && (h.keyEvent.Some? ==> Shortcuts.Distinct(Codes(h.keyEvent.value)))
    ensures IsRepeated(h, e) <==>
              && h.hasEventExecuting && h.keyEvent.Some?
              && e.keyCode == h.keyEvent.value.keyCode && e.action == h.keyEvent.value.action
              && Shortcuts.Elements(Codes(e)) == Shortcuts.Elements(Codes(h.keyEvent.value))
  {
    if h.keyEvent.Some? {
      var now, last := Codes(e), Codes(h.keyEvent.value);
      Shortcuts.DistinctSize(now);
      Shortcuts.DistinctSize(last);
      assert forall i | 0 <= i < |now| :: now[i] == e.items[i].keyCode && now[i] in Shortcuts.Elements(now);
      if IsRepeated(h, e) {
        assert Shortcuts.Elements(now) <= Shortcuts.Elements(last);
        FiniteSets.SubsetOfSameSize(Shortcuts.Elements(now), Shortcuts.Elements(last));
      } else if Shortcuts.Elements(now) == Shortcuts.Elements(last) {
        assert forall i | 0 <= i < |e.items| :: e.items[i].keyCode in Shortcuts.Elements(last);
      }
    }
  }

  /** The visit arms a timer, or takes one away. */
  predicate ArmsOne(x: Subscriber, y: Subscriber) { x.timerId < 0 && y.timerId >= 0 }
  predicate DropsOne(x: Subscriber, e: KeyEvent) { MustDrop(x.option, e) && x.timerId >= 0 }

  lemma VisitExecuting(x: Subscriber, e: KeyEvent, at: nat, s: Timetable, executing: bool, tick: nat)
    requires !Aborts(x, e)
    ensures var v := VisitOne(x, e, at, s, executing, tick);
            && v.executing == (if ArmsOne(x, v.subscriber) then true else if DropsOne(x, e) then false else executing)
            && !(ArmsOne(x, v.subscriber) && DropsOne(x, e))
  {
    var v := VisitOne(x, e, at, s, executing, tick);
    var duration := if x.option.isFinalKeyDown then x.option.finalKeyDownDuration else x.option.finalKeyUpDelay;
  }

  /** Of the subscribers from `i` on that the loop comes to, none after `j` loses a timer. */
  predicate NoneDropsAfter(xs: seq<Subscriber>, e: KeyEvent, i: nat, j: int) {
    forall k | i <= k < |xs| && j < k && Reached(xs, e, i, k) :: !DropsOne(xs[k], e)
  }

  /** The event is in progress afterwards exactly if some subscriber's timer was armed, or one was in
      progress already, and no later visit took a timer away. */
  ghost predicate InProgress(xs: seq<Subscriber>, ys: seq<Subscriber>, e: KeyEvent, i: nat, executing: bool)
    requires |ys| == |xs|
  {
    || (exists j :: i <= j < |xs| && Reached(xs, e, i, j) && ArmsOne(xs[j], ys[j]) && NoneDropsAfter(xs, e, i, j))
    || (executing && NoneDropsAfter(xs, e, i, i - 1))
  }

  lemma ReachedNext(xs: seq<Subscriber>, xs1: seq<Subscriber>, e: KeyEvent, i: nat)
    requires i < |xs| == |xs1| && !Aborts(xs[i], e) && forall k | i < k < |xs| :: xs1[k] == xs[k]
    ensures forall k: nat | i < k < |xs| :: Reached(xs, e, i, k) <==> Reached(xs1, e, i + 1, k)
  {
    forall k: nat | i < k < |xs| ensures Reached(xs, e, i, k) <==> Reached(xs1, e, i + 1, k) {
      assert forall l | i < l <= k :: xs1[l] == xs[l];
      if Reached(xs1, e, i + 1, k) { assert forall l | i <= l <= k :: !Aborts(xs[l], e); }
    }
  }

  lemma InProgressTurn(xs: seq<Subscriber>, xs1: seq<Subscriber>, ys: seq<Subscriber>, e: KeyEvent, i: nat, next: nat, executing: bool, executing1: bool)
    requires i < |xs| == |xs1| == |ys| && !Aborts(xs[i], e) && next == i + 1 && ys[i] == xs1[i]
    requires forall k | i < k < |xs| :: xs1[k] == xs[k]
    requires executing1 == (if ArmsOne(xs[i], xs1[i]) then true else if DropsOne(xs[i], e) then false else executing)
    requires !(ArmsOne(xs[i], xs1[i]) && DropsOne(xs[i], e))
    ensures InProgress(xs1, ys, e, next, executing1) <==> InProgress(xs, ys, e, i, executing)
  {
    ReachedNext(xs, xs1, e, i);
    assert Reached(xs, e, i, i);
    forall j | i <= j < |xs| ensures NoneDropsAfter(xs1, e, next, j) <==> NoneDropsAfter(xs, e, i, j) {}
    assert NoneDropsAfter(xs1, e, next, i) <==> NoneDropsAfter(xs, e, i, i);
    assert NoneDropsAfter(xs, e, i, i - 1) <==> !DropsOne(xs[i], e) && NoneDropsAfter(xs, e, i, i);
  }

  lemma {:induction false} VisitAllKeepsBefore(h: Handler, s: Timetable, e: KeyEvent, ticks: seq<nat>, i: nat)
    requires i <= |h.subscribers| && h.processed != []
    ensures var ys := VisitAll(h, s, e, ticks, i).0.subscribers;
            |ys| == |h.subscribers| && forall j | 0 <= j < i :: ys[j] == h.subscribers[j]
    decreases |h.subscribers| - i
  {
    if i < |h.subscribers| && !Aborts(h.subscribers[i], e) {
      var v := VisitOne(h.subscribers[i], e, |h.processed| - 1, s, h.hasEventExecuting, Tick(ticks, i));
      VisitAllTurn(h, s, e, ticks, i, Visited(h, i, v, e), v.sched);
      VisitAllKeepsBefore(Visited(h, i, v, e), v.sched, e, ticks, i + 1);
    }
  }

  /** One turn of the loop, as far as the event in progress goes. */
  lemma TurnExecuting(h: Handler, s: Timetable, e: KeyEvent, ticks: seq<nat>, i: nat) returns (h1: Handler, s1: Timetable)
    requires i < |h.subscribers| && !Aborts(h.subscribers[i], e) && h.processed != []
    ensures |h1.subscribers| == |h.subscribers| && h1.processed != []
    ensures forall k | 0 <= k < |h.subscribers| && k != i :: h1.subscribers[k] == h.subscribers[k]
    ensures VisitAll(h, s, e, ticks, i) == VisitAll(h1, s1, e, ticks, i + 1)
    ensures h1.hasEventExecuting ==
              (if ArmsOne(h.subscribers[i], h1.subscribers[i]) then true else if DropsOne(h.subscribers[i], e) then false else h.hasEventExecuting)
    ensures !(ArmsOne(h.subscribers[i], h1.subscribers[i]) && DropsOne(h.subscribers[i], e))
  {
    var v := VisitOne(h.subscribers[i], e, |h.processed| - 1, s, h.hasEventExecuting, Tick(ticks, i));
    h1, s1 := Visited(h, i, v, e), v.sched;
    VisitExecuting(h.subscribers[i], e, |h.processed| - 1, s, h.hasEventExecuting, Tick(ticks, i));
    VisitAllTurn(h, s, e, ticks, i, h1, v.sched);
  }

  lemma {:induction false} VisitAllExecuting(h: Handler, s: Timetable, e: KeyEvent, ticks: seq<nat>, i: nat, r: Handler)
    requires i <= |h.subscribers| == |r.subscribers| && h.processed != [] && r == VisitAll(h, s, e, ticks, i).0
    ensures r.hasEventExecuting <==> InProgress(h.subscribers, r.subscribers, e, i, h.hasEventExecuting)
    decreases |h.subscribers| - i
  {
    if i < |h.subscribers| && !Aborts(h.subscribers[i], e) {
      var h1, s1 := TurnExecuting(h, s, e, ticks, i);
      VisitAllKeepsBefore(h1, s1, e, ticks, i + 1);
      VisitAllExecuting(h1, s1, e, ticks, i + 1, r);
      InProgressTurn(h.subscribers, h1.subscribers, r.subscribers, e, i, i + 1, h.hasEventExecuting, h1.hasEventExecuting);
    } else {
      NoneLeft(h.subscribers, r.subscribers, e, i, h.hasEventExecuting);
    }
  }

  lemma NoneLeft(xs: seq<Subscriber>, ys: seq<Subscriber>, e: KeyEvent, i: nat, executing: bool)
    requires |ys| == |xs| && (i < |xs| ==> Aborts(xs[i], e))
    ensures InProgress(xs, ys, e, i, executing) <==> executing
  {
    assert forall j: nat | i <= j < |xs| :: !Reached(xs, e, i, j);
  }

  /** After an event that is not skipped, an event is in progress exactly if a subscriber's timer was
      armed by it, or one was in progress and this is no release or cancel, and no subscriber that
      the loop came to later lost a timer. */
  lemma OnKeyInProgress(h: Handler, s: Timetable, e: KeyEvent, ticks: seq<nat>)
    requires !IsRepeated(h, e)
    ensures var r := OnKey(h, s, e, ticks).0;
            && r.keyEvent == Some(e) && |r.subscribers| == |h.subscribers|
            && (r.hasEventExecuting <==>
                  InProgress(h.subscribers, r.subscribers, e, 0, h.hasEventExecuting && e.action != 3 && e.action != 1))
  {
    var h1 := h.(keyEvent := Some(e), processed := h.processed + [e],
                 hasEventExecuting := h.hasEventExecuting && e.action != ACTION_UP && e.action != ACTION_CANCEL);
    VisitAllKeepsBefore(h1, s, e, ticks, 0);
    VisitAllExecuting(h1, s, e, ticks, 0, OnKey(h, s, e, ticks).0);
    VisitAllKeepsEvent(h1, s, e, ticks, 0);
  }

  lemma {:induction false} VisitAllKeepsEvent(h: Handler, s: Timetable, e: KeyEvent, ticks: seq<nat>, i: nat)
    requires i <= |h.subscribers| && h.processed != []
    ensures VisitAll(h, s, e, ticks, i).0.keyEvent == h.keyEvent
    decreases |h.subscribers| - i
  {
    if i < |h.subscribers| && !Aborts(h.subscribers[i], e) {
      var v := VisitOne(h.subscribers[i], e, |h.processed| - 1, s, h.hasEventExecuting, Tick(ticks, i));
      VisitAllTurn(h, s, e, ticks, i, Visited(h, i, v, e), v.sched);
      VisitAllKeepsEvent(Visited(h, i, v, e), v.sched, e, ticks, i + 1);
    }
  }

  // ---------- the list of subscribers ----------

  predicate Subscribed(h: Handler, session: int, id: int) {
    exists i :: 0 <= i < |h.subscribers| && h.subscribers[i].id == id && h.subscribers[i].session == session
  }

  /** Subscribing adds at most one subscriber, at the end; it succeeds exactly for an id of at least 0
      and at most four pre-keys, and then the session has a subscriber of that id, the old one if
      it had one. */
  lemma SubscribeMeans(h: Handler, session: int, id: int, o: KeyOption)
    ensures var r := Subscribe(h, session, id, o);
            && h.subscribers <= r.subscribers && |r.subscribers| <= |h.subscribers| + 1
            && (Subscribed(r, session, id) <==> Subscribed(h, session, id) || (id >= 0 && |o.preKeys| <= 4))
            && r.notified == h.notified && r.processed == h.processed && r.hasEventExecuting == h.hasEventExecuting
    ensures var r := Subscribe(h, session, id, o);
            |r.subscribers| > |h.subscribers| ==>
              var x := r.subscribers[|h.subscribers|];
              && !Subscribed(h, session, id) && x.id == id && x.session == session && x.option == o
              && x.timerId == -1 && x.keyEvent.None?
  {
    var r := Subscribe(h, session, id, o);
    if |r.subscribers| > |h.subscribers| { assert r.subscribers[|h.subscribers|].id == id; }
    if Subscribed(h, session, id) {
      var i :| 0 <= i < |h.subscribers| && h.subscribers[i].id == id && h.subscribers[i].session == session;
      assert r.subscribers[i] == h.subscribers[i];
    }
  }

  /** Unsubscribing takes away the first subscriber of that session and id, and no other. */
  lemma {:induction false} UnsubscribeMeans(h: Handler, s: Timetable, session: int, id: int, i: nat)
    requires i <= |h.subscribers| && forall j | 0 <= j < i :: !(h.subscribers[j].id == id && h.subscribers[j].session == session)
    ensures var r := Unsubscribe(h, s, session, id, i).0;
            if !Subscribed(h, session, id) then r == h
            else exists k :: 0 <= k < |h.subscribers| && h.subscribers[k].id == id && h.subscribers[k].session == session
                   && (forall j | 0 <= j < k :: !(h.subscribers[j].id == id && h.subscribers[j].session == session))
                   && r.subscribers == h.subscribers[..k] + h.subscribers[k + 1..]
    decreases |h.subscribers| - i
  {
    if i < |h.subscribers| && !(h.subscribers[i].id == id && h.subscribers[i].session == session) {
      UnsubscribeMeans(h, s, session, id, i + 1);
    }
  }
}
