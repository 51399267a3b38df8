/** KeySubscriberHandler: who is notified of which key event, at once or by a timer. */
module Subscribers {
  import opened Options
  import opened KeyTypes
  import opened TimerList
  import opened Timers
  import opened Ownership

  const MAX_PRE_KEY_COUNT := 4

  datatype KeyOption = KeyOption(
    preKeys: set<int>, finalKey: int, isFinalKeyDown: bool, finalKeyDownDuration: int, finalKeyUpDelay: int)

  /** A subscriber object; `uid` is its identity. */
  datatype Subscriber = Subscriber(
    uid: nat, id: int, session: int, option: KeyOption, timerId: int, keyEvent: Option<KeyEvent>)

  /** The handler's state.  `processed` and `notified` record the run: the events that were
      not skipped as repeated, and the notifications sent. */
  datatype Handler = Handler(
    subscribers: seq<Subscriber>, nextUid: nat, hasEventExecuting: bool, keyEvent: Option<KeyEvent>,
    processed: seq<KeyEvent>, notified: seq<(nat, KeyEvent)>)

  const EMPTY := Handler([], 0, false, None, [], [])

  function Without(ks: seq<int>, k: int): seq<int> {
    if ks == [] then [] else if ks[0] == k then ks[1..] else [ks[0]] + Without(ks[1..], k)
  }

  predicate IsPreKeysMatch(preKeys: set<int>, pressed: seq<int>) {
    preKeys == {} || (|preKeys| == |pressed| && forall i | 0 <= i < |pressed| :: pressed[i] in preKeys)
  }

  /** The final key and the other pressed keys are those of the option. */
  predicate Fits(o: KeyOption, e: KeyEvent) {
    e.keyCode == o.finalKey && IsPreKeysMatch(o.preKeys, Without(PressedOf(e.items), e.keyCode))
  }

  predicate IsNotifyPowerKeySubsciber(keyCode: int, pressed: seq<int>) {
    keyCode != KEYCODE_POWER || (KEYCODE_VOLUME_DOWN !in pressed && KEYCODE_VOLUME_UP !in pressed)
  }

  predicate IsRepeated(h: Handler, e: KeyEvent) {
    && h.hasEventExecuting && h.keyEvent.Some?
    && var l := h.keyEvent.value;
       e.keyCode == l.keyCode && e.action == l.action && |e.items| == |l.items|
       && forall i | 0 <= i < |e.items| :: e.items[i].keyCode in Codes(l)
  }

  /** What a visit to one subscriber does. */
  datatype Visit = Visit(subscriber: Subscriber, sched: Timetable, executing: bool, notify: bool)

  /** ClearTimer. */
  function Clear(x: Subscriber, s: Timetable, executing: bool): Visit {
    if x.timerId < 0 then Visit(x, s, executing, false)
    else Visit(x.(timerId := -1, keyEvent := None), Remove(s, x.timerId), false, false)
  }

  /** AddTimer. */
  function Arm(x: Subscriber, e: KeyEvent, at: nat, s: Timetable, executing: bool, tick: nat): Visit {
    var duration := if x.option.isFinalKeyDown then x.option.finalKeyDownDuration else x.option.finalKeyUpDelay;
    if x.timerId >= 0 || duration <= 0 then Visit(x, s, executing, false) else
    var (r, id) := Add(s, duration, 1, Notify(x.uid, e, at), tick);
    if id < 0 then Visit(x.(timerId := id), r, executing, false)
    else Visit(x.(timerId := id, keyEvent := Some(e)), r, true, false)
  }

  function VisitDown(x: Subscriber, e: KeyEvent, at: nat, s: Timetable, executing: bool, tick: nat): Visit {
    if !x.option.isFinalKeyDown then Visit(x, s, executing, false)
    else if !Fits(x.option, e) then Clear(x, s, executing)
    else if x.option.finalKeyDownDuration <= 0 then Visit(x, s, executing, true)
    else Arm(x, e, at, s, executing, tick)
  }

  /** The option waits for this key to come up and for no longer than it was held. */
  predicate Released(o: KeyOption, e: KeyEvent) {
    Fits(o, e) && IsNotifyPowerKeySubsciber(o.finalKey, Without(PressedOf(e.items), e.keyCode))
  }

  /** The visit needs the event's own key item and does not find it: the loop is left. */
  predicate Aborts(x: Subscriber, e: KeyEvent) {
    && e.action == ACTION_UP && !x.option.isFinalKeyDown && Released(x.option, e)
    && x.option.finalKeyDownDuration > 0 && OwnItem(e.items, e.keyCode).None?
  }

  function VisitUp(x: Subscriber, e: KeyEvent, at: nat, s: Timetable, executing: bool, tick: nat): Visit
    requires e.action == ACTION_UP && !Aborts(x, e)
  {
    var o := x.option;
    if o.isFinalKeyDown then Clear(x, s, executing)
    else if !Released(o, e) then Visit(x, s, executing, false)
    else if o.finalKeyDownDuration > 0
            && e.actionTime - OwnItem(e.items, e.keyCode).value.downTime >= o.finalKeyDownDuration * 1000
    then Visit(x, s, executing, false)
    else if o.finalKeyUpDelay <= 0 then Visit(x, s, executing, true)
    else Arm(x, e, at, s, executing, tick)
  }

  function VisitOne(x: Subscriber, e: KeyEvent, at: nat, s: Timetable, executing: bool, tick: nat): Visit
    requires !Aborts(x, e)
  {
    if e.action == ACTION_DOWN then VisitDown(x, e, at, s, executing, tick)
    else if e.action == ACTION_UP then VisitUp(x, e, at, s, executing, tick)
    else if e.action == ACTION_CANCEL then Clear(x, s, executing)
    else Visit(x, s, executing, false)
  }

  /** The loop over the subscribers from the i-th on. */
  function VisitAll(h: Handler, s: Timetable, e: KeyEvent, ticks: seq<nat>, i: nat): (Handler, Timetable)
    requires i <= |h.subscribers| && h.processed != []
    decreases |h.subscribers| - i
  {
    if i == |h.subscribers| || Aborts(h.subscribers[i], e) then (h, s) else
    var v := VisitOne(h.subscribers[i], e, |h.processed| - 1, s, h.hasEventExecuting, Tick(ticks, i));
    VisitAll(Visited(h, i, v, e), v.sched, e, ticks, i + 1)
  }

  /** One turn of the loop, which leads from `h` and `s` to `h1` and `s1`. */
  lemma VisitAllTurn(h: Handler, s: Timetable, e: KeyEvent, ticks: seq<nat>, i: nat, h1: Handler, s1: Timetable)
    requires i < |h.subscribers| && h.processed != [] && !Aborts(h.subscribers[i], e)
    requires var v := VisitOne(h.subscribers[i], e, |h.processed| - 1, s, h.hasEventExecuting, Tick(ticks, i));
             h1 == Visited(h, i, v, e) && s1 == v.sched
    ensures |h1.subscribers| == |h.subscribers| && h1.processed == h.processed
    ensures VisitAll(h, s, e, ticks, i) == VisitAll(h1, s1, e, ticks, i + 1)
  {
  }

  function Visited(h: Handler, i: nat, v: Visit, e: KeyEvent): Handler
    requires i < |h.subscribers|
  {
    h.(subscribers := h.subscribers[i := v.subscriber], hasEventExecuting := v.executing,
       notified := if v.notify then h.notified + [(v.subscriber.uid, e)] else h.notified)
  }

  /** OnSubscribeKeyEvent. */
  function OnKey(h: Handler, s: Timetable, e: KeyEvent, ticks: seq<nat>): (Handler, Timetable) {
    if IsRepeated(h, e) then (h, s) else
    var h1 := h.(keyEvent := Some(e), processed := h.processed + [e],
                 hasEventExecuting := h.hasEventExecuting && e.action != ACTION_UP && e.action != ACTION_CANCEL);
    VisitAll(h1, s, e, ticks, 0)
  }

  /** The visit counts the event as handled. */
  predicate Answers(x: Subscriber, e: KeyEvent) {
    var o := x.option;
    if e.action == ACTION_DOWN then o.isFinalKeyDown && Fits(o, e) && o.finalKeyDownDuration <= 0
    else
      && e.action == ACTION_UP && !o.isFinalKeyDown && Released(o, e)
      && (o.finalKeyDownDuration <= 0 ||
          (OwnItem(e.items, e.keyCode).Some?
           && e.actionTime - OwnItem(e.items, e.keyCode).value.downTime < o.finalKeyDownDuration * 1000))
  }

  /** OnSubscribeKeyEvent's verdict: a handled event goes no further.  A loop that is left early
      makes the event unhandled, whatever it did before. */
  predicate Handled(h: Handler, e: KeyEvent) {
    || IsRepeated(h, e)
    || (NoneAborts(h.subscribers, e) && AnyAnswers(h.subscribers, e))
  }

  predicate NoneAborts(xs: seq<Subscriber>, e: KeyEvent) { forall i | 0 <= i < |xs| :: !Aborts(xs[i], e) }

  predicate AnyAnswers(xs: seq<Subscriber>, e: KeyEvent) { exists i :: 0 <= i < |xs| && Answers(xs[i], e) }

  /** Some subscriber from the i-th on answers. */
  predicate AnsweredFrom(h: Handler, e: KeyEvent, i: nat) {
    exists j :: i <= j < |h.subscribers| && Answers(h.subscribers[j], e)
  }

  lemma {:induction false} DownNotifies(h: Handler, s: Timetable, e: KeyEvent, ticks: seq<nat>, i: nat)
    requires e.action == ACTION_DOWN && i <= |h.subscribers| && h.processed != []
    ensures var r := VisitAll(h, s, e, ticks, i).0;
            |r.notified| >= |h.notified| && (|r.notified| > |h.notified| <==> AnsweredFrom(h, e, i))
    decreases |h.subscribers| - i
  {
    if i < |h.subscribers| {
      var v := VisitOne(h.subscribers[i], e, |h.processed| - 1, s, h.hasEventExecuting, Tick(ticks, i));
      var h1 := Visited(h, i, v, e);
      DownNotifies(h1, v.sched, e, ticks, i + 1);
      DownVisit(h.subscribers[i], e, |h.processed| - 1, s, h.hasEventExecuting, Tick(ticks, i));
      AnsweredTurn(h, h1, e, i);
      VisitAllTurn(h, s, e, ticks, i, h1, v.sched);
    }
  }

  lemma DownVisit(x: Subscriber, e: KeyEvent, at: nat, s: Timetable, executing: bool, tick: nat)
    requires e.action == ACTION_DOWN
    ensures VisitOne(x, e, at, s, executing, tick).notify <==> Answers(x, e)
  {
  }

  lemma AnsweredTurn(h: Handler, h1: Handler, e: KeyEvent, i: nat)
    requires i < |h.subscribers| == |h1.subscribers|
    requires forall j | i < j < |h.subscribers| :: h1.subscribers[j] == h.subscribers[j]
    ensures AnsweredFrom(h, e, i) <==> Answers(h.subscribers[i], e) || AnsweredFrom(h1, e, i + 1)
  {
    if AnsweredFrom(h, e, i) && !Answers(h.subscribers[i], e) {
      var j :| i <= j < |h.subscribers| && Answers(h.subscribers[j], e);
      assert h1.subscribers[j] == h.subscribers[j];
    }
  }

  /** A key going down is withheld from what follows exactly if it repeats the one in progress
      or a subscriber is notified of it at once. */
  lemma DownHandledIffNotified(h: Handler, s: Timetable, e: KeyEvent, ticks: seq<nat>)
    requires e.action == ACTION_DOWN
    ensures Handled(h, e) <==> IsRepeated(h, e) || |OnKey(h, s, e, ticks).0.notified| > |h.notified|
  {
    if !IsRepeated(h, e) {
      var h1 := h.(keyEvent := Some(e), processed := h.processed + [e]);
      DownNotifies(h1, s, e, ticks, 0);
      assert AnsweredFrom(h1, e, 0) <==> Handled(h, e);
    }
  }

  /** SubscribeKeyEvent. */
  function Subscribe(h: Handler, session: int, id: int, o: KeyOption): Handler {
    if id < 0 || |o.preKeys| > MAX_PRE_KEY_COUNT then h
    else if exists i :: 0 <= i < |h.subscribers| && h.subscribers[i].id == id && h.subscribers[i].session == session then h
    else h.(subscribers := h.subscribers + [Subscriber(h.nextUid, id, session, o, -1, None)], nextUid := h.nextUid + 1)
  }

  /** ClearTimer and removal of the i-th subscriber. */
  function Drop(h: Handler, s: Timetable, i: nat): (Handler, Timetable)
    requires i < |h.subscribers|
  {
    var v := Clear(h.subscribers[i], s, h.hasEventExecuting);
    (h.(subscribers := h.subscribers[..i] + h.subscribers[i + 1..], hasEventExecuting := v.executing), v.sched)
  }

  /** UnsubscribeKeyEvent from the i-th subscriber on. */
  function Unsubscribe(h: Handler, s: Timetable, session: int, id: int, i: nat): (Handler, Timetable)
    requires i <= |h.subscribers|
    decreases |h.subscribers| - i
  {
    if i == |h.subscribers| then (h, s)
    else if h.subscribers[i].id == id && h.subscribers[i].session == session then Drop(h, s, i)
    else Unsubscribe(h, s, session, id, i + 1)
  }

  /** OnSessionDelete from the i-th subscriber on. */
  function OnSessionDelete(h: Handler, s: Timetable, session: int, i: nat): (Handler, Timetable)
    requires i <= |h.subscribers|
    decreases |h.subscribers| - i
  {
    if i == |h.subscribers| then (h, s)
    else if h.subscribers[i].session == session then
      var (r, u) := Drop(h, s, i);
      OnSessionDelete(r, u, session, i)
    else OnSessionDelete(h, s, session, i + 1)
  }

  /** RemoveSubscriberKeyUpTimer from the i-th subscriber on. */
  function ClearKey(h: Handler, s: Timetable, keyCode: int, i: nat): (Handler, Timetable)
    requires i <= |h.subscribers|
    decreases |h.subscribers| - i
  {
    if i == |h.subscribers| then (h, s)
    else if h.subscribers[i].timerId >= 0 && h.subscribers[i].option.finalKey == keyCode then
      ClearKey(Cleared(h, s, i), Clear(h.subscribers[i], s, h.hasEventExecuting).sched, keyCode, i + 1)
    else ClearKey(h, s, keyCode, i + 1)
  }

  /** OnTimer, for the subscriber the timer was armed for if it still exists. */
  function OnTimer(h: Handler, uid: nat, i: nat): Handler
    requires i <= |h.subscribers|
    decreases |h.subscribers| - i
  {
    if i == |h.subscribers| then h
    else if h.subscribers[i].uid != uid then OnTimer(h, uid, i + 1)
    else
      var x := h.subscribers[i];
      h.(subscribers := h.subscribers[i := x.(timerId := -1, keyEvent := None)],
         notified := if x.keyEvent.Some? then h.notified + [(uid, x.keyEvent.value)] else h.notified)
  }

  // ---------- ownership of the timers ----------

  function For(uid: nat): Item -> bool { (t: Item) => t.callback.Notify? && t.callback.subscriber == uid }

  /** The live timers armed for a subscriber. */
  function Mine(s: Timetable, uid: nat): seq<Item> { Keep(s.items, For(uid)) }

  /** An event that may come while a key is held without ending the hold: the key reported
      down again, or an event that says nothing about keys; or an UP that may leave the loop. */
  predicate KeepsHolding(o: KeyOption, e: KeyEvent) {
    && (e.action == ACTION_DOWN ==> Fits(o, e))
    && e.action != ACTION_CANCEL
    && (e.action == ACTION_UP ==> MayAbort(e))
  }

  /** The hold armed by event number `at` is still on after the events of `hist`. */
  predicate Holding(o: KeyOption, hist: seq<KeyEvent>, at: nat) {
    && at < |hist| && hist[at].action == ACTION_DOWN && Fits(o, hist[at])
    && forall j | at < j < |hist| :: KeepsHolding(o, hist[j])
  }

  /** `mine` is what the subscriber's fields say: nothing, or one timer of its id carrying the
      event it keeps; for a press-and-hold option the hold is still on. */
  ghost predicate SubscriberOk(x: Subscriber, mine: seq<Item>, hist: seq<KeyEvent>) {
    if x.timerId < 0 then x.timerId == -1 && mine == [] && x.keyEvent.None?
    else
      && |mine| == 1 && mine[0].id == x.timerId && mine[0].repeatCount == 1
      && mine[0].callback.Notify? && mine[0].callback.subscriber == x.uid
      && x.keyEvent == Some(mine[0].callback.armedBy)
      && mine[0].callback.at < |hist| && hist[mine[0].callback.at] == mine[0].callback.armedBy
      && (x.option.isFinalKeyDown ==> Holding(x.option, hist, mine[0].callback.at))
  }

  predicate HasUid(xs: seq<Subscriber>, uid: nat) { exists i :: 0 <= i < |xs| && xs[i].uid == uid }

  ghost predicate UidsOk(h: Handler) {
    && (forall i | 0 <= i < |h.subscribers| :: h.subscribers[i].uid < h.nextUid)
    && (forall i, j | 0 <= i < j < |h.subscribers| :: h.subscribers[i].uid != h.subscribers[j].uid)
  }

  /** Subscribers before `i` are settled for the whole of `processed`, the others for `before`. */
  ghost predicate HandlerOk(h: Handler, s: Timetable, before: seq<KeyEvent>, i: nat) {
    && UidsOk(h)
    && (forall j | 0 <= j < |h.subscribers| ::
          SubscriberOk(h.subscribers[j], Mine(s, h.subscribers[j].uid), if j < i then h.processed else before))
    && (forall u: nat | !HasUid(h.subscribers, u) :: Mine(s, u) == [])
  }

  ghost predicate SubscribersOk(h: Handler, s: Timetable) { Inv(s) && HandlerOk(h, s, h.processed, 0) }

  /** What visiting subscriber `x` may change: its own entry and its own timers. */
  ghost predicate VisitOk(x: Subscriber, s: Timetable, v: Visit, hist: seq<KeyEvent>) {
    && v.subscriber.uid == x.uid && v.subscriber.option == x.option
    && v.subscriber.id == x.id && v.subscriber.session == x.session
    && Only(s, v.sched, SubscriberOwner)
    && (forall u: nat | u != x.uid :: Mine(v.sched, u) == Mine(s, u))
    && SubscriberOk(v.subscriber, Mine(v.sched, x.uid), hist)
  }

  lemma StayOk(x: Subscriber, s: Timetable, executing: bool, notify: bool, before: seq<KeyEvent>, e: KeyEvent)
    requires Inv(s) && SubscriberOk(x, Mine(s, x.uid), before)
    requires x.option.isFinalKeyDown && x.timerId >= 0 ==> KeepsHolding(x.option, e)
    ensures VisitOk(x, s, Visit(x, s, executing, notify), before + [e])
  {
    var hist := before + [e];
    if x.timerId >= 0 {
      var at := Mine(s, x.uid)[0].callback.at;
      assert hist[at] == before[at];
      if x.option.isFinalKeyDown {
        forall j | at < j < |hist| ensures KeepsHolding(x.option, hist[j]) { assert j < |before| ==> hist[j] == before[j]; }
      }
    }
  }

  lemma ClearOk(x: Subscriber, s: Timetable, executing: bool, before: seq<KeyEvent>, hist: seq<KeyEvent>)
    requires Inv(s) && SubscriberOk(x, Mine(s, x.uid), before)
    ensures VisitOk(x, s, Clear(x, s, executing), hist)
  {
    if x.timerId >= 0 {
      var t := Mine(s, x.uid)[0];
      SelectedById(s, For(x.uid), t);
      RemoveOnly(s, t.id, SubscriberOwner);
      RemoveKeep(s, t.id, For(x.uid));
      assert Mine(s, x.uid) == [t] && [t][1..] == [];
      forall u: nat | u != x.uid ensures Mine(Remove(s, t.id), u) == Mine(s, u) { RemoveOther(s, t, For(u)); }
    }
  }

  lemma ArmOk(x: Subscriber, e: KeyEvent, s: Timetable, executing: bool, tick: nat, before: seq<KeyEvent>)
    requires Inv(s) && SubscriberOk(x, Mine(s, x.uid), before)
    requires x.option.isFinalKeyDown ==> e.action == ACTION_DOWN && Fits(x.option, e)
    ensures VisitOk(x, s, Arm(x, e, |before|, s, executing, tick), before + [e])
  {
    var duration := if x.option.isFinalKeyDown then x.option.finalKeyDownDuration else x.option.finalKeyUpDelay;
    if x.timerId >= 0 || duration <= 0 {
      StayOk(x, s, executing, false, before, e);
    } else {
      var cb := Notify(x.uid, e, |before|);
      AddOnly(s, duration, cb, tick);
      AddKeep(s, duration, cb, tick, For(x.uid));
      forall u: nat | u != x.uid ensures Mine(Add(s, duration, 1, cb, tick).0, u) == Mine(s, u) {
        AddKeep(s, duration, cb, tick, For(u));
      }
    }
  }

  lemma VisitOneOk(x: Subscriber, e: KeyEvent, s: Timetable, executing: bool, tick: nat, before: seq<KeyEvent>)
    requires Inv(s) && SubscriberOk(x, Mine(s, x.uid), before) && !Aborts(x, e)
    ensures VisitOk(x, s, VisitOne(x, e, |before|, s, executing, tick), before + [e])
  {
    var v := VisitOne(x, e, |before|, s, executing, tick);
    if v == Clear(x, s, executing) {
      ClearOk(x, s, executing, before, before + [e]);
    } else if v == Arm(x, e, |before|, s, executing, tick) && (x.option.isFinalKeyDown ==> e.action == ACTION_DOWN) {
      ArmOk(x, e, s, executing, tick, before);
    } else {
      StayOk(x, s, executing, v.notify, before, e);
    }
  }

  /** Replacing one subscriber by what a visit made of it. */
  lemma VisitedOk(h: Handler, s: Timetable, i: nat, x: Subscriber, r: Timetable, before: seq<KeyEvent>, h': Handler)
    requires HandlerOk(h, s, before, i) && i < |h.subscribers| && x.uid == h.subscribers[i].uid
    requires forall u: nat | u != x.uid :: Mine(r, u) == Mine(s, u)
    requires SubscriberOk(x, Mine(r, x.uid), h.processed)
    requires h'.subscribers == h.subscribers[i := x] && h'.nextUid == h.nextUid && h'.processed == h.processed
    ensures HandlerOk(h', r, before, i + 1)
  {
    forall j | 0 <= j < |h'.subscribers|
      ensures SubscriberOk(h'.subscribers[j], Mine(r, h'.subscribers[j].uid), if j < i + 1 then h.processed else before)
    {
      if j != i { assert h'.subscribers[j] == h.subscribers[j] && h.subscribers[j].uid != h.subscribers[i].uid; }
    }
    forall u: nat | !HasUid(h'.subscribers, u) ensures Mine(r, u) == [] {
      assert h'.subscribers[i].uid != u;
      forall j | 0 <= j < |h.subscribers| ensures h.subscribers[j].uid != u { assert h'.subscribers[j].uid != u; }
      assert !HasUid(h.subscribers, u);
    }
  }

  /** Subscribers a left loop did not reach are settled too: the event lacks its key item. */
  lemma UnvisitedOk(h: Handler, s: Timetable, before: seq<KeyEvent>, i: nat, e: KeyEvent)
    requires Inv(s) && HandlerOk(h, s, before, i) && h.processed == before + [e]
    requires i == |h.subscribers| || (e.action == ACTION_UP && MayAbort(e))
    ensures SubscribersOk(h, s)
  {
    forall j | 0 <= j < |h.subscribers| ensures SubscriberOk(h.subscribers[j], Mine(s, h.subscribers[j].uid), h.processed) {
      if j >= i { StayOk(h.subscribers[j], s, false, false, before, e); }
    }
  }

  lemma {:induction false} VisitAllOk(h: Handler, s: Timetable, e: KeyEvent, ticks: seq<nat>, i: nat, before: seq<KeyEvent>)
    requires i <= |h.subscribers| && h.processed == before + [e] && Inv(s) && HandlerOk(h, s, before, i)
    ensures var (r, u) := VisitAll(h, s, e, ticks, i);
            SubscribersOk(r, u) && Only(s, u, SubscriberOwner)
    decreases |h.subscribers| - i
  {
    if i == |h.subscribers| || Aborts(h.subscribers[i], e) {
      UnvisitedOk(h, s, before, i, e);
    } else {
      var v := VisitOne(h.subscribers[i], e, |before|, s, h.hasEventExecuting, Tick(ticks, i));
      VisitOneOk(h.subscribers[i], e, s, h.hasEventExecuting, Tick(ticks, i), before);
      VisitedOk(h, s, i, v.subscriber, v.sched, before, Visited(h, i, v, e));
      VisitAllOk(Visited(h, i, v, e), v.sched, e, ticks, i + 1, before);
    }
  }

  lemma OnKeyOk(h: Handler, s: Timetable, e: KeyEvent, ticks: seq<nat>)
    requires SubscribersOk(h, s)
    ensures var (r, u) := OnKey(h, s, e, ticks);
            SubscribersOk(r, u) && Only(s, u, SubscriberOwner)
  {
    if !IsRepeated(h, e) {
      var h1 := h.(keyEvent := Some(e), processed := h.processed + [e],
                   hasEventExecuting := h.hasEventExecuting && e.action != ACTION_UP && e.action != ACTION_CANCEL);
      assert HandlerOk(h1, s, h.processed, 0);
      VisitAllOk(h1, s, e, ticks, 0, h.processed);
    }
  }

  lemma SubscribeOk(h: Handler, s: Timetable, session: int, id: int, o: KeyOption)
    requires SubscribersOk(h, s)
    ensures SubscribersOk(Subscribe(h, session, id, o), s)
  {
    var r := Subscribe(h, session, id, o);
    if r != h {
      var n := |h.subscribers|;
      assert !HasUid(h.subscribers, h.nextUid);
      forall u: nat | !HasUid(r.subscribers, u) ensures Mine(s, u) == [] {
        forall j | 0 <= j < n ensures h.subscribers[j].uid != u { assert r.subscribers[j].uid != u; }
        assert !HasUid(h.subscribers, u);
      }
    }
  }

  /** Taking a subscriber without a timer off the list. */
  lemma RemovedOk(h: Handler, s: Timetable, i: nat, r: Timetable, h': Handler)
    requires HandlerOk(h, s, h.processed, 0) && i < |h.subscribers|
    requires forall u: nat | u != h.subscribers[i].uid :: Mine(r, u) == Mine(s, u)
    requires Mine(r, h.subscribers[i].uid) == []
    requires h'.subscribers == h.subscribers[..i] + h.subscribers[i + 1..] && h'.nextUid == h.nextUid && h'.processed == h.processed
    ensures HandlerOk(h', r, h.processed, 0)
  {
    var x := h.subscribers[i];
    forall j | 0 <= j < |h'.subscribers| ensures SubscriberOk(h'.subscribers[j], Mine(r, h'.subscribers[j].uid), h.processed) {
      var k := if j < i then j else j + 1;
      assert h'.subscribers[j] == h.subscribers[k] && h.subscribers[k].uid != x.uid;
    }
    forall u: nat | !HasUid(h'.subscribers, u) ensures Mine(r, u) == [] {
      if u != x.uid { StillAbsent(h, i, h', u); }
    }
  }

  lemma StillAbsent(h: Handler, i: nat, h': Handler, u: nat)
    requires i < |h.subscribers| && h'.subscribers == h.subscribers[..i] + h.subscribers[i + 1..]
    requires !HasUid(h'.subscribers, u) && u != h.subscribers[i].uid
    ensures !HasUid(h.subscribers, u)
  {
    forall k | 0 <= k < |h.subscribers| ensures h.subscribers[k].uid != u {
      if k < i { assert h'.subscribers[k] == h.subscribers[k]; }
      if k > i { assert h'.subscribers[k - 1] == h.subscribers[k]; }
    }
  }

  lemma DropOk(h: Handler, s: Timetable, i: nat)
    requires SubscribersOk(h, s) && i < |h.subscribers|
    ensures var (r, u) := Drop(h, s, i);
            SubscribersOk(r, u) && Only(s, u, SubscriberOwner)
  {
    var v := Clear(h.subscribers[i], s, h.hasEventExecuting);
    ClearOk(h.subscribers[i], s, h.hasEventExecuting, h.processed, h.processed);
    RemovedOk(h, s, i, v.sched, Drop(h, s, i).0);
  }

  lemma {:induction false} UnsubscribeOk(h: Handler, s: Timetable, session: int, id: int, i: nat)
    requires SubscribersOk(h, s) && i <= |h.subscribers|
    ensures var (r, u) := Unsubscribe(h, s, session, id, i);
            SubscribersOk(r, u) && Only(s, u, SubscriberOwner)
    decreases |h.subscribers| - i
  {
    if i < |h.subscribers| { DropOk(h, s, i); UnsubscribeOk(h, s, session, id, i + 1); }
  }

  lemma {:induction false} SessionDeleteOk(h: Handler, s: Timetable, session: int, i: nat)
    requires SubscribersOk(h, s) && i <= |h.subscribers|
    ensures var (r, u) := OnSessionDelete(h, s, session, i);
            SubscribersOk(r, u) && Only(s, u, SubscriberOwner)
    decreases |h.subscribers| - i
  {
    if i < |h.subscribers| {
      if h.subscribers[i].session == session {
        DropOk(h, s, i);
        var (r, u) := Drop(h, s, i);
        SessionDeleteOk(r, u, session, i);
      } else {
        SessionDeleteOk(h, s, session, i + 1);
      }
    }
  }

  function OfOtherSessions(xs: seq<Subscriber>, session: int): seq<Subscriber> {
    if xs == [] then []
    else if xs[0].session == session then OfOtherSessions(xs[1..], session)
    else [xs[0]] + OfOtherSessions(xs[1..], session)
  }

  /** A deleted session takes exactly its own subscribers with it. */
  lemma {:induction false} SessionDeleteDrops(h: Handler, s: Timetable, session: int, i: nat)
    requires i <= |h.subscribers|
    ensures OnSessionDelete(h, s, session, i).0.subscribers
            == h.subscribers[..i] + OfOtherSessions(h.subscribers[i..], session)
    decreases |h.subscribers| - i
  {
    if i < |h.subscribers| {
      assert h.subscribers[i..][1..] == h.subscribers[i + 1..];
      if h.subscribers[i].session == session {
        var (r, u) := Drop(h, s, i);
        assert r.subscribers[..i] == h.subscribers[..i] && r.subscribers[i..] == h.subscribers[i + 1..];
        SessionDeleteDrops(r, u, session, i);
      } else {
        SessionDeleteDrops(h, s, session, i + 1);
        assert h.subscribers[..i + 1] == h.subscribers[..i] + [h.subscribers[i]];
      }
    }
  }

  /** The handler after ClearTimer on the i-th subscriber. */
  function Cleared(h: Handler, s: Timetable, i: nat): Handler
    requires i < |h.subscribers|
  {
    var v := Clear(h.subscribers[i], s, h.hasEventExecuting);
    h.(subscribers := h.subscribers[i := v.subscriber], hasEventExecuting := v.executing)
  }

  lemma ClearedOk(h: Handler, s: Timetable, i: nat)
    requires SubscribersOk(h, s) && i < |h.subscribers|
    ensures var u := Clear(h.subscribers[i], s, h.hasEventExecuting).sched;
            SubscribersOk(Cleared(h, s, i), u) && Only(s, u, SubscriberOwner)
  {
    var v := Clear(h.subscribers[i], s, h.hasEventExecuting);
    ClearOk(h.subscribers[i], s, h.hasEventExecuting, h.processed, h.processed);
    assert HandlerOk(h, s, h.processed, i);
    VisitedOk(h, s, i, v.subscriber, v.sched, h.processed, Cleared(h, s, i));
  }

  lemma {:induction false} ClearKeyOk(h: Handler, s: Timetable, keyCode: int, i: nat)
    requires SubscribersOk(h, s) && i <= |h.subscribers|
    ensures var (r, u) := ClearKey(h, s, keyCode, i);
            SubscribersOk(r, u) && Only(s, u, SubscriberOwner)
    decreases |h.subscribers| - i
  {
    if i < |h.subscribers| {
      if h.subscribers[i].timerId >= 0 && h.subscribers[i].option.finalKey == keyCode {
        var u := Clear(h.subscribers[i], s, h.hasEventExecuting).sched;
        ClearedOk(h, s, i);
        ClearKeyOk(Cleared(h, s, i), u, keyCode, i + 1);
        OnlyTrans(s, u, ClearKey(h, s, keyCode, i).1, SubscriberOwner);
      } else {
        ClearKeyOk(h, s, keyCode, i + 1);
      }
    }
  }

  /** Timers of other owners may come and go. */
  lemma SubscribersFrame(h: Handler, s: Timetable, r: Timetable, o: Owner)
    requires SubscribersOk(h, s) && Only(s, r, o) && o != SubscriberOwner
    ensures SubscribersOk(h, r)
  {
    forall u: nat ensures Mine(r, u) == Mine(s, u) { OnlyKeeps(s, r, o, For(u)); }
  }

  lemma {:induction false} OnTimerFinds(h: Handler, uid: nat, i: nat, k: nat)
    requires UidsOk(h) && i <= k < |h.subscribers| && h.subscribers[k].uid == uid
    ensures var x := h.subscribers[k];
            OnTimer(h, uid, i) == h.(subscribers := h.subscribers[k := x.(timerId := -1, keyEvent := None)],
              notified := if x.keyEvent.Some? then h.notified + [(uid, x.keyEvent.value)] else h.notified)
    decreases k - i
  {
    if i < k { OnTimerFinds(h, uid, i + 1, k); }
  }

  /** A subscriber timer that fires belongs to a current subscriber, notifies it of the very
      event that armed the timer, and leaves it without one; a press-and-hold notification is
      sent only while the hold is on. */
  lemma FiringNotifies(h: Handler, s: Timetable, now: int)
    requires SubscribersOk(h, s) && s.items != [] && now <= s.clock && s.items[0].callback.Notify?
    ensures var cb := s.items[0].callback;
            var r := OnTimer(h, cb.subscriber, 0);
            && SubscribersOk(r, FireHead(s, now)) && Only(s, FireHead(s, now), SubscriberOwner)
            && r.notified == h.notified + [(cb.subscriber, cb.armedBy)]
            && exists k :: 0 <= k < |h.subscribers| && h.subscribers[k].uid == cb.subscriber
                 && h.subscribers[k].timerId == s.items[0].id
                 && (h.subscribers[k].option.isFinalKeyDown ==> Holding(h.subscribers[k].option, h.processed, cb.at))
  {
    var t := s.items[0];
    var uid := t.callback.subscriber;
    var k := HolderOf(h, s, t);
    var x := h.subscribers[k];
    var v := Visit(x.(timerId := -1, keyEvent := None), FireHead(s, now), false, false);
    FiredOk(h, s, now, k, v);
    OnTimerFinds(h, uid, 0, k);
    assert HandlerOk(h, s, h.processed, k);
    VisitedOk(h, s, k, v.subscriber, v.sched, h.processed, OnTimer(h, uid, 0));
    assert HandlerOk(OnTimer(h, uid, 0), v.sched, h.processed, 0);
  }

  /** The subscriber a live timer was armed for. */
  lemma HolderOf(h: Handler, s: Timetable, t: Item) returns (k: nat)
    requires SubscribersOk(h, s) && t in s.items && t.callback.Notify?
    ensures k < |h.subscribers| && h.subscribers[k].uid == t.callback.subscriber
    ensures Mine(s, h.subscribers[k].uid) == [t] && SubscriberOk(h.subscribers[k], [t], h.processed)
    ensures h.subscribers[k].timerId == t.id
  {
    var uid := t.callback.subscriber;
    KeepMember(s.items, For(uid), t);
    assert HasUid(h.subscribers, uid);
    k :| 0 <= k < |h.subscribers| && h.subscribers[k].uid == uid;
    assert SubscriberOk(h.subscribers[k], Mine(s, uid), h.processed);
    assert Mine(s, uid) == [Mine(s, uid)[0]];
  }

  lemma FiredOk(h: Handler, s: Timetable, now: int, k: nat, v: Visit)
    requires SubscribersOk(h, s) && s.items != [] && now <= s.clock && k < |h.subscribers|
    requires Mine(s, h.subscribers[k].uid) == [s.items[0]] && SubscriberOk(h.subscribers[k], [s.items[0]], h.processed)
    requires h.subscribers[k].timerId == s.items[0].id
    requires v == Visit(h.subscribers[k].(timerId := -1, keyEvent := None), FireHead(s, now), false, false)
    ensures VisitOk(h.subscribers[k], s, v, h.processed)
  {
    var t := s.items[0];
    var uid := h.subscribers[k].uid;
    FireOnly(s, now);
    assert t in s.items && ItemOk(s, t) && t.repeatCount == 1;
    OneShotFires(s, now);
    assert Mine(s, uid) == [t] + Keep(s.items[1..], For(uid));
    assert Mine(v.sched, uid) == [];
    forall u: nat | u != uid ensures Mine(v.sched, u) == Mine(s, u) {}
  }

  // ---------- which releases end every hold ----------

  /** Processing `e` leaves no press-and-hold timer armed, whoever subscribed. */
  ghost predicate EndsHolds(e: KeyEvent) {
    forall h, s, ticks :: SubscribersOk(h, s) && !IsRepeated(h, e) ==> NoHolds(OnKey(h, s, e, ticks).0.subscribers)
  }

  predicate NoHolds(xs: seq<Subscriber>) {
    forall i | 0 <= i < |xs| :: xs[i].option.isFinalKeyDown ==> xs[i].timerId < 0
  }

  /** Some subscriber's visit may leave the loop for want of the event's own key item. */
  predicate MayAbort(e: KeyEvent) {
    && OwnItem(e.items, e.keyCode).None?
    && IsNotifyPowerKeySubsciber(e.keyCode, Without(PressedOf(e.items), e.keyCode))
  }

  lemma {:induction false} UpVisitsAll(h: Handler, s: Timetable, e: KeyEvent, ticks: seq<nat>, i: nat)
    requires e.action == ACTION_UP && !MayAbort(e) && i <= |h.subscribers| && h.processed != []
    requires NoHolds(h.subscribers[..i])
    ensures NoHolds(VisitAll(h, s, e, ticks, i).0.subscribers)
    decreases |h.subscribers| - i
  {
    if i == |h.subscribers| {
      assert h.subscribers[..i] == h.subscribers;
    } else {
      var v := VisitOne(h.subscribers[i], e, |h.processed| - 1, s, h.hasEventExecuting, Tick(ticks, i));
      var r := Visited(h, i, v, e);
      assert r.subscribers[..i + 1] == h.subscribers[..i] + [v.subscriber];
      UpVisitsAll(r, v.sched, e, ticks, i + 1);
    }
  }

  /** A subscriber to the release of `e`'s key, and one holding another key by event `d`. */
  function Awkward(e: KeyEvent, d: KeyEvent): Handler {
    Handler(
      [Subscriber(0, 1, 1, KeyOption({}, e.keyCode, false, 100, 0), -1, None),
       Subscriber(1, 2, 1, KeyOption({}, d.keyCode, true, 100, 0), 0, Some(d))],
      2, true, Some(d), [d], [])
  }

  function OneHold(d: KeyEvent): Timetable { Add(Initial(0), 100, 1, Notify(1, d, 0), 0).0 }

  /** The handler after the two subscriptions. */
  function BothSubscribed(e: KeyEvent, d: KeyEvent): Handler {
    Subscribe(Subscribe(EMPTY, 1, 1, KeyOption({}, e.keyCode, false, 100, 0)), 1, 2, KeyOption({}, d.keyCode, true, 100, 0))
  }

  lemma SecondIsArmed(x: Subscriber, d: KeyEvent)
    requires d.action == ACTION_DOWN && x.option == KeyOption({}, d.keyCode, true, 100, 0) && x.uid == 1 && x.timerId == -1
    ensures VisitOne(x, d, 0, Initial(0), false, 0) == Visit(x.(timerId := 0, keyEvent := Some(d)), OneHold(d), true, false)
  {
    assert LeastFree(Initial<Callback>(0).items, 0);
  }

  /** Two subscriptions and a key press lead there from an empty handler. */
  lemma AwkwardIsReached(e: KeyEvent, d: KeyEvent)
    requires d.action == ACTION_DOWN
    ensures OnKey(BothSubscribed(e, d), Initial(0), d, []) == (Awkward(e, d), OneHold(d))
  {
    var h2 := BothSubscribed(e, d);
    var x0 := Subscriber(0, 1, 1, KeyOption({}, e.keyCode, false, 100, 0), -1, None);
    var x1 := Subscriber(1, 2, 1, KeyOption({}, d.keyCode, true, 100, 0), -1, None);
    assert h2.subscribers == [x0, x1];
    var h3 := h2.(keyEvent := Some(d), processed := [d]);
    var s0: Timetable := Initial(0);
    assert OnKey(h2, s0, d, []) == VisitAll(h3, s0, d, [], 0) by { assert [] + [d] == [d]; }
    VisitAllTurn(h3, s0, d, [], 0, h3, s0);
    SecondIsArmed(x1, d);
    var h4 := Visited(h3, 1, VisitOne(x1, d, 0, s0, false, 0), d);
    VisitAllTurn(h3, s0, d, [], 1, h4, OneHold(d));
    assert h4.subscribers == Awkward(e, d).subscribers;
  }

  lemma AwkwardIsPossible(e: KeyEvent, d: KeyEvent)
    requires d.action == ACTION_DOWN
    ensures SubscribersOk(Awkward(e, d), OneHold(d))
  {
    InitialInv<Callback>(0);
    SubscribeOk(EMPTY, Initial(0), 1, 1, KeyOption({}, e.keyCode, false, 100, 0));
    SubscribeOk(Subscribe(EMPTY, 1, 1, KeyOption({}, e.keyCode, false, 100, 0)), Initial(0), 1, 2, KeyOption({}, d.keyCode, true, 100, 0));
    OnKeyOk(BothSubscribed(e, d), Initial(0), d, []);
    AwkwardIsReached(e, d);
  }

  /** A release ends every hold exactly when its event carries its own key item, or is a power
      key release with a volume key down. */
  lemma ReleaseEndsHoldsIff(e: KeyEvent)
    requires e.action == ACTION_UP
    ensures EndsHolds(e) <==> !MayAbort(e)
  {
    if !MayAbort(e) {
      forall h, s, ticks | SubscribersOk(h, s) && !IsRepeated(h, e) ensures NoHolds(OnKey(h, s, e, ticks).0.subscribers) {
        var h1 := h.(keyEvent := Some(e), processed := h.processed + [e], hasEventExecuting := false);
        UpVisitsAll(h1, s, e, ticks, 0);
      }
    } else {
      var d := KeyEvent(0, ACTION_DOWN, 0, 0, []);
      var h, s := Awkward(e, d), OneHold(d);
      AwkwardIsPossible(e, d);
      assert !IsRepeated(h, e);
      assert Aborts(h.subscribers[0], e);
      assert OnKey(h, s, e, []).0.subscribers == h.subscribers;
      assert !NoHolds(OnKey(h, s, e, []).0.subscribers) by {
        assert h.subscribers[1].option.isFinalKeyDown && h.subscribers[1].timerId == 0;
      }
    }
  }
}
