/** The delay line of a volume key is a queue: its events leave in order of arrival, each once. */
module DelayLine {
  import opened KeyTypes
  import opened TimerList
  import opened Ownership
  import opened KeySequences
  import opened KeyCommands
  import opened EventLoop
  import opened Stages
  import Launched = Launches
  import Timers

  /** The delayed events of key `c` that wait, each in its timer. */
  function Queue(w: World, c: int): seq<Item> { Keep(w.s.items, OfDelayed(c)) }

  /** The world after the sequence stage of an event, and whether the event was handled by then. */
  function AfterSequences(w: World, e: KeyEvent, ticks: Ticks): (World, bool) {
    var byShortcut := ShortKeys(w.k, w.s, e, ticks.shortcut).2;
    var (w2, bySequence) := Sequences(AfterShortcuts(w, e, ticks), e, ticks.sequences);
    (w2, byShortcut || bySequence)
  }

  /** The event launches a sequence whose history has key `c`. */
  ghost predicate TakenByLaunch(w: World, e: KeyEvent, ticks: Ticks, c: int) {
    var w1 := AfterShortcuts(w, e, ticks);
    && Sequences(w1, e, ticks.sequences).1
    && exists i :: 0 <= i < |Press(w1.k.matcher, w1.s, e, ticks.sequences).0.keys|
                   && Press(w1.k.matcher, w1.s, e, ticks.sequences).0.keys[i].stroke.keyCode == c
  }

  /** The last stage holds the event back: nothing took it, its key is a volume key and not noted,
      and a timer could be armed. */
  predicate Joins(w: World, e: KeyEvent, handled: bool, tick: nat) {
    && !handled && e.keyCode !in w.k.specialKeys && IsDelayedKey(e.keyCode)
    && Timers.Add(w.s, SPECIAL_KEY_DOWN_DELAY, 1, DelayedKey(e), tick).1 >= 0
  }

  predicate HeldBack(w: World, e: KeyEvent, ticks: Ticks) {
    var (w2, handled) := AfterSequences(w, e, ticks);
    Joins(w2, e, handled, ticks.delay)
  }

  /** What a step adds to the queue of `c`. */
  function Joined(w: World, e: Event, c: int): seq<Item> {
    if e.Key? && e.event.keyCode == c && HeldBack(w, e.event, e.ticks)
    then [NewItem(AfterSequences(w, e.event, e.ticks).0.s, SPECIAL_KEY_DOWN_DELAY, DelayedKey(e.event), e.ticks.delay)]
    else []
  }

  /** The step fires the timer of a delayed event of `c`. */
  predicate Delivers(w: World, e: Event, c: int) { e.Fire? && Fires(w, e.now) && OfDelayed(c)(w.s.items[0]) }

  /** What a step takes out of the queue of `c`: the event whose timer fires, or all of them for a
      launch. */
  ghost function Left(w: World, e: Event, c: int): seq<Item> {
    if Delivers(w, e, c) then [w.s.items[0]]
    else if e.Key? && TakenByLaunch(w, e.event, e.ticks, c) then Queue(w, c)
    else []
  }

  // ---------- one step ----------

  lemma ConsumeOneSkips(w: World, stroke: Stroke, c: int)
    requires WorldOk(w) && stroke.keyCode != c
    ensures Queue(ConsumeOne(w, stroke), c) == Queue(w, c)
  {
    var d := stroke.keyCode;
    var (h, s1) := Subscribers.ClearKey(w.h, w.s, d, 0);
    Subscribers.ClearKeyOk(w.h, w.s, d, 0);
    OnlyKeeps(w.s, s1, SubscriberOwner, OfDelayed(c));
    DelaysFrame(w.k, w.s, s1, SubscriberOwner);
    assert Listed(w.k, d) == Ids(Keep(s1.items, OfDelayed(d)));
    RemoveAllDelayed(s1, d, Listed(w.k, d));
  }

  lemma {:induction false} ConsumeSkips(w: World, keys: seq<Pressed>, c: int)
    requires WorldOk(w) && forall i | 0 <= i < |keys| :: keys[i].stroke.keyCode != c
    ensures Queue(Consume(w, keys), c) == Queue(w, c)
    decreases |keys|
  {
    if keys != [] {
      ConsumeOneSkips(w, keys[0].stroke, c);
      ConsumeOneOk(w, keys[0].stroke);
      ConsumeSkips(ConsumeOne(w, keys[0].stroke), keys[1..], c);
    }
  }

  /** The queue after the sequence stage. */
  lemma SequenceStage(w: World, e: KeyEvent, ticks: Ticks, c: int)
    requires WorldOk(w)
    ensures var w2 := AfterSequences(w, e, ticks).0;
            WorldOk(w2) && Queue(w2, c) == if TakenByLaunch(w, e, ticks, c) then [] else Queue(w, c)
  {
    var w1 := AfterShortcuts(w, e, ticks);
    ShortKeysOk(w, e, ticks.shortcut);
    ShortKeysLeave(w, e, ticks.shortcut, OfDelayed(c));
    SequencesStepOk(w1, e, ticks.sequences);
    PressLeaves(w1, e, ticks.sequences, OfDelayed(c));
    var (m, s, launched) := Press(w1.k.matcher, w1.s, e, ticks.sequences);
    if TakenByLaunch(w, e, ticks, c) {
      Launched.LaunchSilences(w1, e, ticks.sequences, c);
    } else if launched {
      MatchedOk(w1, e, ticks.sequences);
      ConsumeSkips(World(w1.k.(matcher := m), w1.h, s), m.keys, c);
    }
  }

  /** The queue after the delay stage: a new event goes to its end. */
  lemma DelayStage(w: World, e: KeyEvent, tick: nat, c: int)
    requires WorldOk(w)
    ensures var (r, id) := Timers.Add(w.s, SPECIAL_KEY_DOWN_DELAY, 1, DelayedKey(e), tick);
            var t := NewItem(w.s, SPECIAL_KEY_DOWN_DELAY, DelayedKey(e), tick);
            Keep(r.items, OfDelayed(c)) == if id >= 0 && e.keyCode == c then Queue(w, c) + [t] else Queue(w, c)
  {
    var t := NewItem(w.s, SPECIAL_KEY_DOWN_DELAY, DelayedKey(e), tick);
    AddKeep(w.s, SPECIAL_KEY_DOWN_DELAY, DelayedKey(e), tick, OfDelayed(c));
    KeepMembers(w.s.items, OfDelayed(c));
    forall x | x in Queue(w, c) ensures x.nextCallTime <= t.nextCallTime { assert OneShot(x) && Timers.ItemOk(w.s, x); }
    InsertLast(Queue(w, c), t);
  }

  lemma RestQueues(w: World, e: KeyEvent, handled: bool, tick: nat, c: int)
    requires WorldOk(w)
    ensures var t := NewItem(w.s, SPECIAL_KEY_DOWN_DELAY, DelayedKey(e), tick);
            Queue(Rest(w, e, handled, tick).0, c) == Queue(w, c) + if e.keyCode == c && Joins(w, e, handled, tick) then [t] else []
  {
    DelayStage(w, e, tick, c);
  }

  lemma TellQueues(w: World, e: KeyEvent, ticks: Ticks, c: int)
    requires WorldOk(AfterSequences(w, e, ticks).0)
    ensures var (w2, handled) := AfterSequences(w, e, ticks);
            Queue(OnKeyEvent(w, e, ticks), c) == Queue(Rest(w2, e, handled, ticks.delay).0, c)
  {
    var (w2, handled) := AfterSequences(w, e, ticks);
    var (w3, done) := Rest(w2, e, handled, ticks.delay);
    RestOk(w2, e, handled, ticks.delay);
    TellLeaves(w3, e, ticks.subscribers, OfDelayed(c));
  }

  lemma KeyQueues(w: World, e: KeyEvent, ticks: Ticks, c: int)
    requires WorldOk(w)
    ensures Queue(OnKeyEvent(w, e, ticks), c) ==
              (if TakenByLaunch(w, e, ticks, c) then [] else Queue(w, c)) + Joined(w, Key(e, ticks), c)
  {
    var (w2, handled) := AfterSequences(w, e, ticks);
    SequenceStage(w, e, ticks, c);
    RestQueues(w2, e, handled, ticks.delay, c);
    TellQueues(w, e, ticks, c);
  }

  lemma FireQueues(w: World, e: Event, c: int)
    requires WorldOk(w) && e.Fire?
    ensures Queue(w, c) == Left(w, e, c) + Queue(Step(w, e), c)
  {
    if Fires(w, e.now) {
      var head := w.s.items[0];
      assert head in w.s.items && OneShot(head);
      if Delivers(w, e, c) {
        FireTakesFirst(w, e.now, e.subscriberTicks, OfDelayed(c));
      } else if head.callback.DelayedKey? {
        FireLeaves(w, e.now, e.subscriberTicks, OfDelayed(c));
        OneShotFires(w.s, e.now);
      } else {
        FireLeavesOthers(w, e.now, e.subscriberTicks, OfDelayed(c));
      }
    }
  }

  /** What was waiting and what joins is what leaves and what waits then, in that order. */
  lemma StepQueues(w: World, e: Event, c: int)
    requires WorldOk(w)
    ensures Queue(w, c) + Joined(w, e, c) == Left(w, e, c) + Queue(Step(w, e), c)
  {
    if e.Key? {
      KeyQueues(w, e.event, e.ticks, c);
      if TakenByLaunch(w, e.event, e.ticks, c) { assert Joined(w, e, c) == []; }
    } else if e.Fire? {
      FireQueues(w, e, c);
    } else {
      OtherStepLeaves(w, e, OfDelayed(c));
    }
  }

  /** A firing tells the subscribers the very event that the timer holds, once it is due. */
  lemma DeliveredIsTold(w: World, e: Event, c: int)
    requires WorldOk(w) && Delivers(w, e, c)
    ensures var t := w.s.items[0];
            && t.nextCallTime <= e.now && Listed(w.k, c) != []
            && Step(w, e) == Tell(w.(k := Popped(w.k, c), s := Timers.FireHead(w.s, e.now)), t.callback.event, e.subscriberTicks)
  {
    assert w.s.items[0] in w.s.items && OneShot(w.s.items[0]) && Timers.ItemOk(w.s, w.s.items[0]);
    DelayLinePopsTheFired(w);
  }

  // ---------- every run ----------

  function Joinings(ws: seq<World>, es: seq<Event>, c: int): seq<seq<Item>>
    requires |es| < |ws|
  {
    seq(|es|, i requires 0 <= i < |es| => Joined(ws[i], es[i], c))
  }

  ghost function Leavings(ws: seq<World>, es: seq<Event>, c: int): seq<seq<Item>>
    requires |es| < |ws|
  {
    seq(|es|, i requires 0 <= i < |es| => Left(ws[i], es[i], c))
  }

  function Queues(ws: seq<World>, c: int): seq<seq<Item>> {
    seq(|ws|, i requires 0 <= i < |ws| => Queue(ws[i], c))
  }

  /** The first `n` one after the other. */
  function Flat(xs: seq<seq<Item>>, n: nat): seq<Item>
    requires n <= |xs|
  {
    if n == 0 then [] else Flat(xs, n - 1) + xs[n - 1]
  }

  lemma {:induction false} Conserved(qs: seq<seq<Item>>, js: seq<seq<Item>>, ls: seq<seq<Item>>, n: nat)
    requires n <= |js| == |ls| < |qs| && qs[0] == []
    requires forall i | 0 <= i < |js| :: qs[i] + js[i] == ls[i] + qs[i + 1]
    ensures Flat(js, n) == Flat(ls, n) + qs[n]
  {
    if n > 0 {
      Conserved(qs, js, ls, n - 1);
      Regroup(Flat(ls, n - 1), qs[n - 1], js[n - 1], ls[n - 1], qs[n]);
    }
  }

  /** In every run the delayed events of a key leave in the order of their arrival, each once: those
      that left and those that wait are, one after the other, those that arrived. */
  lemma DelayLineIsAQueue(ws: seq<World>, es: seq<Event>, n: nat, c: int)
    requires Trace(ws, es) && n <= |es|
    ensures Flat(Joinings(ws, es, c), n) == Flat(Leavings(ws, es, c), n) + Queue(ws[n], c)
  {
    var qs, js, ls := Queues(ws, c), Joinings(ws, es, c), Leavings(ws, es, c);
    forall i | 0 <= i < |js| ensures qs[i] + js[i] == ls[i] + qs[i + 1] { TraceQueues(ws, es, i, c); }
    Conserved(qs, js, ls, n);
  }

  lemma TraceQueues(ws: seq<World>, es: seq<Event>, n: nat, c: int)
    requires Trace(ws, es) && n < |es|
    ensures Queue(ws[n], c) + Joined(ws[n], es[n], c) == Left(ws[n], es[n], c) + Queue(ws[n + 1], c)
  {
    TraceOk(ws, es, n);
    StepQueues(ws[n], es[n], c);
  }

  lemma Regroup(gone: seq<Item>, queue: seq<Item>, joined: seq<Item>, left: seq<Item>, rest: seq<Item>)
    requires queue + joined == left + rest
    ensures gone + queue + joined == gone + left + rest
  {
    assert gone + queue + joined == gone + (queue + joined);
    assert gone + left + rest == gone + (left + rest);
  }

  /** Event `j` brought the delayed event of `t`, due no earlier than 150 ms after it. */
  predicate BroughtBy(ws: seq<World>, es: seq<Event>, t: Item, j: nat)
    requires |es| < |ws|
  {
    && j < |es| && es[j].Key? && t.callback == DelayedKey(es[j].event)
    && t.nextCallTime >= ws[j].s.clock + 150
  }

  lemma {:induction false} FlatHas(xs: seq<seq<Item>>, n: nat, t: Item)
    requires n <= |xs| && t in Flat(xs, n)
    ensures exists j: nat :: j < n && t in xs[j]
  {
    if t in Flat(xs, n - 1) { FlatHas(xs, n - 1, t); }
  }

  lemma JoinedMeans(ws: seq<World>, es: seq<Event>, j: nat, c: int, t: Item)
    requires Trace(ws, es) && j < |es| && t in Joined(ws[j], es[j], c)
    ensures BroughtBy(ws, es, t, j)
  {
    TraceOk(ws, es, j);
    ClockMoves(ws[j], es[j].event, es[j].ticks);
  }

  lemma ClockMoves(w: World, e: KeyEvent, ticks: Ticks)
    requires WorldOk(w)
    ensures AfterSequences(w, e, ticks).0.s.clock >= w.s.clock
  {
    var w1 := AfterShortcuts(w, e, ticks);
    ShortKeysOk(w, e, ticks.shortcut);
    ShortKeysClock(w, e, ticks.shortcut);
    var (m, s, launched) := Press(w1.k.matcher, w1.s, e, ticks.sequences);
    PressOk(w1.k.matcher, w1.s, e, ticks.sequences);
    MatchedOk(w1, e, ticks.sequences);
    ConsumeClock(World(w1.k.(matcher := m), w1.h, s), m.keys);
  }

  lemma ShortKeysClock(w: World, e: KeyEvent, tick: nat)
    requires WorldOk(w)
    ensures ShortKeys(w.k, w.s, e, tick).1.clock >= w.s.clock
  {
  }

  lemma {:induction false} ConsumeClock(w: World, keys: seq<Pressed>)
    requires WorldOk(w)
    ensures Consume(w, keys).s.clock >= w.s.clock
    decreases |keys|
  {
    if keys != [] {
      var c := keys[0].stroke.keyCode;
      var (h, s1) := Subscribers.ClearKey(w.h, w.s, c, 0);
      Subscribers.ClearKeyOk(w.h, w.s, c, 0);
      DelaysFrame(w.k, w.s, s1, SubscriberOwner);
      assert Listed(w.k, c) == Ids(Keep(s1.items, OfDelayed(c)));
      RemoveAllDelayed(s1, c, Listed(w.k, c));
      ConsumeOneOk(w, keys[0].stroke);
      ConsumeClock(ConsumeOne(w, keys[0].stroke), keys[1..]);
    }
  }

  /** In every run a delayed event that the subscribers are told came as a key event at least 150 ms
      before. */
  lemma DeliveredInTime(ws: seq<World>, es: seq<Event>, n: nat, c: int)
    requires Trace(ws, es) && n < |es| && Delivers(ws[n], es[n], c)
    ensures var t := ws[n].s.items[0];
            exists j: nat :: j < n && BroughtBy(ws, es, t, j) && es[n].now >= ws[j].s.clock + 150
  {
    var t := ws[n].s.items[0];
    TraceOk(ws, es, n);
    DeliveredIsTold(ws[n], es[n], c);
    DelayLineIsAQueue(ws, es, n, c);
    KeepMembers(ws[n].s.items, OfDelayed(c));
    assert t in Queue(ws[n], c);
    FlatHas(Joinings(ws, es, c), n, t);
    var j: nat :| j < n && t in Joinings(ws, es, c)[j];
    JoinedMeans(ws, es, j, c, t);
  }

  // ---------- where an event goes ----------

  /** Neither a shortcut nor a sequence takes the event, and its key is not noted. */
  predicate Untaken(w: World, e: KeyEvent, ticks: Ticks) {
    !AfterSequences(w, e, ticks).1 && e.keyCode !in w.k.specialKeys
  }

  /** A timer of 150 ms can be had. */
  predicate TimerFree(s: Timetable, tick: nat) { |s.items| < 64 && s.clock + tick + 150 <= 0x7FFF_FFFF_FFFF_FFFF }

  predicate IsVolumeKey(e: KeyEvent) { e.keyCode == 16 || e.keyCode == 17 }

  /** An event that nothing takes is held back exactly if it is a volume key's and a timer can be
      had, and then waits 150 ms from the last reading of the clock. */
  lemma HeldBackMeans(w: World, e: KeyEvent, ticks: Ticks)
    requires WorldOk(w)
    ensures var s := AfterSequences(w, e, ticks).0.s;
            var joined := Joined(w, Key(e, ticks), e.keyCode);
            if Untaken(w, e, ticks) && IsVolumeKey(e) && TimerFree(s, ticks.delay)
            then |joined| == 1 && joined[0].callback == DelayedKey(e) && joined[0].nextCallTime == s.clock + ticks.delay + 150
            else joined == []
  {
    var w2 := AfterSequences(w, e, ticks).0;
    SequenceStage(w, e, ticks, e.keyCode);
    Timers.AddMeans(w2.s, SPECIAL_KEY_DOWN_DELAY, 1, DelayedKey(e), ticks.delay);
    Timers.OrderedIds(w2.s);
    UnlaunchedKeeps(w, e, ticks);
  }

  /** Without a launch the stages before the last leave the subscribers and the noted keys alone. */
  lemma UnlaunchedKeeps(w: World, e: KeyEvent, ticks: Ticks)
    ensures var (w2, handled) := AfterSequences(w, e, ticks);
            !handled ==> w2.h == w.h && w2.k.specialKeys == w.k.specialKeys
  {
  }

  lemma {:induction false} ClearKeyTellsNone(h: Subscribers.Handler, s: Timetable, c: int, i: nat)
    requires i <= |h.subscribers|
    ensures var r := Subscribers.ClearKey(h, s, c, i).0;
            r.processed == h.processed && r.notified == h.notified
    decreases |h.subscribers| - i
  {
    if i < |h.subscribers| {
      if h.subscribers[i].timerId >= 0 && h.subscribers[i].option.finalKey == c {
        ClearKeyTellsNone(Subscribers.Cleared(h, s, i), Subscribers.Clear(h.subscribers[i], s, h.hasEventExecuting).sched, c, i + 1);
      } else {
        ClearKeyTellsNone(h, s, c, i + 1);
      }
    }
  }

  lemma {:induction false} ConsumeTellsNone(w: World, keys: seq<Pressed>)
    ensures var r := Consume(w, keys).h;
            r.processed == w.h.processed && r.notified == w.h.notified
    decreases |keys|
  {
    if keys != [] {
      ClearKeyTellsNone(w.h, w.s, keys[0].stroke.keyCode, 0);
      ConsumeTellsNone(ConsumeOne(w, keys[0].stroke), keys[1..]);
    }
  }

  lemma SequencesTellNone(w: World, e: KeyEvent, ticks: Ticks)
    ensures var r := AfterSequences(w, e, ticks).0.h;
            r.processed == w.h.processed && r.notified == w.h.notified
  {
    var w1 := AfterShortcuts(w, e, ticks);
    var (m, s, launched) := Press(w1.k.matcher, w1.s, e, ticks.sequences);
    ConsumeTellsNone(World(w1.k.(matcher := m), w1.h, s), m.keys);
  }

  /** The subscribers see an event at once exactly if nothing takes it and it is not held back, and
      then they see it as they were; otherwise none of them is told of it. */
  lemma WhereItGoes(w: World, e: KeyEvent, ticks: Ticks)
    requires WorldOk(w)
    ensures var s := AfterSequences(w, e, ticks).0.s;
            var r := OnKeyEvent(w, e, ticks);
            if Untaken(w, e, ticks) && !(IsVolumeKey(e) && TimerFree(s, ticks.delay))
            then exists u: Timetable :: u.items == s.items && (r.h, r.s) == Subscribers.OnKey(w.h, u, e, ticks.subscribers)
            else r.h.processed == w.h.processed && r.h.notified == w.h.notified
  {
    var (w2, handled) := AfterSequences(w, e, ticks);
    HeldBackMeans(w, e, ticks);
    UnlaunchedKeeps(w, e, ticks);
    SequencesTellNone(w, e, ticks);
    var w3 := Rest(w2, e, handled, ticks.delay).0;
    if Untaken(w, e, ticks) && !(IsVolumeKey(e) && TimerFree(w2.s, ticks.delay)) {
      assert w3.s.items == w2.s.items;
      assert OnKeyEvent(w, e, ticks) == Tell(w3, e, ticks.subscribers);
    }
  }
}
