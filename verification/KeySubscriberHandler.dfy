/** KeySubscriberHandler with its subscriber list and the shared timer manager changed in
    place; the methods are proved against the functions of module Subscribers. */
module KeySubscriberHandlerClass {
  import opened Options
  import opened KeyTypes
  import opened Subscribers
  import opened TimerManagerClass

  /** The verdict of the loop from the i-th subscriber on. */
  function VerdictFrom(xs: seq<Subscriber>, e: KeyEvent, i: nat, handled: bool): bool
    requires i <= |xs|
    decreases |xs| - i
  {
    if i == |xs| then handled
    else if Aborts(xs[i], e) then false
    else VerdictFrom(xs, e, i + 1, handled || Answers(xs[i], e))
  }

  lemma {:induction false} VerdictMeans(xs: seq<Subscriber>, e: KeyEvent, i: nat, handled: bool)
    requires i <= |xs|
    ensures VerdictFrom(xs, e, i, handled) <==> NoneAborts(xs[i..], e) && (handled || AnyAnswers(xs[i..], e))
    decreases |xs| - i
  {
    if i < |xs| {
      var all, rest := xs[i..], xs[i + 1..];
      assert all == [xs[i]] + rest;
      VerdictMeans(xs, e, i + 1, handled || Answers(xs[i], e));
      assert all[0] == xs[i];
      if AnyAnswers(all, e) && !Answers(xs[i], e) {
        var j :| 0 <= j < |all| && Answers(all[j], e);
        assert rest[j - 1] == all[j];
      }
      if AnyAnswers(rest, e) {
        var j :| 0 <= j < |rest| && Answers(rest[j], e);
        assert all[j + 1] == rest[j];
      }
      if NoneAborts(all, e) {
        forall j | 0 <= j < |rest| ensures !Aborts(rest[j], e) { assert all[j + 1] == rest[j]; }
      }
      if !Aborts(xs[i], e) && NoneAborts(rest, e) {
        forall j | 0 <= j < |all| ensures !Aborts(all[j], e) { if j > 0 { assert all[j] == rest[j - 1]; } }
      }
    }
  }

  class KeySubscriberHandler {
    const timers: TimerManager<Callback>
    var subscribers: seq<Subscriber>
    var hasEventExecuting: bool
    var keyEvent: Option<KeyEvent>
    // What the run did so far; see Subscribers.Handler.
    var nextUid: nat
    var processed: seq<KeyEvent>
    var notified: seq<(nat, KeyEvent)>

    function View(): Handler
      reads this
    {
      Handler(subscribers, nextUid, hasEventExecuting, keyEvent, processed, notified)
    }

    constructor (timers: TimerManager<Callback>)
      ensures this.timers == timers && View() == EMPTY
    {
      this.timers := timers;
      subscribers, nextUid, hasEventExecuting, keyEvent := [], 0, false, None;
      processed, notified := [], [];
    }

    method ClearTimer(i: nat)
      requires i < |subscribers|
      modifies this`subscribers, this`hasEventExecuting, timers
      ensures var v := Clear(old(subscribers)[i], old(timers.View()), old(hasEventExecuting));
              && subscribers == old(subscribers)[i := v.subscriber]
              && hasEventExecuting == v.executing && timers.View() == v.sched
    {
      var x := subscribers[i];
      if x.timerId < 0 {
        return;
      }
      var _ := timers.RemoveTimer(x.timerId);
      subscribers := subscribers[i := x.(timerId := -1, keyEvent := None)];
      hasEventExecuting := false;
    }

    method AddTimer(i: nat, e: KeyEvent, tick: nat)
      requires i < |subscribers| && processed != []
      modifies this`subscribers, this`hasEventExecuting, timers
      ensures var v := Arm(old(subscribers)[i], e, |processed| - 1, old(timers.View()), old(hasEventExecuting), tick);
              && subscribers == old(subscribers)[i := v.subscriber]
              && hasEventExecuting == v.executing && timers.View() == v.sched
    {
      var x := subscribers[i];
      if x.timerId >= 0 {
        return;
      }
      var duration := if x.option.isFinalKeyDown then x.option.finalKeyDownDuration else x.option.finalKeyUpDelay;
      if duration <= 0 {
        return;
      }
      var id := timers.AddTimer(duration, 1, Some(Notify(x.uid, e, |processed| - 1)), tick);
      subscribers := subscribers[i := x.(timerId := id)];
      if id < 0 {
        return;
      }
      subscribers := subscribers[i := x.(timerId := id, keyEvent := Some(e))];
      hasEventExecuting := true;
    }

    /** One turn of the loops of HandleKeyDown, HandleKeyUp and HandleKeyCancel; `stop` means the
        loop is left and `answered` that the event counts as handled. */
    method VisitSubscriber(i: nat, e: KeyEvent, tick: nat) returns (stop: bool, answered: bool)
      requires i < |subscribers| && processed != []
      modifies this`subscribers, this`hasEventExecuting, this`notified, timers
      ensures stop <==> Aborts(old(subscribers)[i], e)
      ensures !stop ==> (answered <==> Answers(old(subscribers)[i], e))
      ensures stop ==> View() == old(View()) && timers.View() == old(timers.View())
      ensures !stop ==>
                var v := VisitOne(old(subscribers)[i], e, |processed| - 1, old(timers.View()), old(hasEventExecuting), tick);
                View() == Visited(old(View()), i, v, e) && timers.View() == v.sched
    {
      var x := subscribers[i];
      var o := x.option;
      stop, answered := false, false;
      if e.action == ACTION_CANCEL {
        ClearTimer(i);
      } else if e.action == ACTION_DOWN && o.isFinalKeyDown {
        if !Fits(o, e) {
          ClearTimer(i);
        } else if o.finalKeyDownDuration <= 0 {
          notified := notified + [(x.uid, e)];
          answered := true;
        } else {
          AddTimer(i, e, tick);
        }
      } else if e.action == ACTION_UP {
        if o.isFinalKeyDown {
          ClearTimer(i);
        } else if Released(o, e) {
          if o.finalKeyDownDuration > 0 {
            var own := OwnItem(e.items, e.keyCode);
            if own.None? {
              return true, false;
            }
            if e.actionTime - own.value.downTime >= o.finalKeyDownDuration * 1000 {
              return false, false;
            }
          }
          answered := true;
          if o.finalKeyUpDelay <= 0 {
            notified := notified + [(x.uid, e)];
          } else {
            AddTimer(i, e, tick);
          }
        }
      }
    }

    /** The same turn, told from what is left of the loop. */
    method Turn(i: nat, e: KeyEvent, ticks: seq<nat>) returns (stop: bool, answered: bool)
      requires i < |subscribers| && processed != []
      modifies this`subscribers, this`hasEventExecuting, this`notified, timers
      ensures stop <==> Aborts(old(subscribers)[i], e)
      ensures !stop ==> (answered <==> Answers(old(subscribers)[i], e))
      ensures |subscribers| == |old(subscribers)| && forall j | i < j < |subscribers| :: subscribers[j] == old(subscribers)[j]
      ensures VisitAll(old(View()), old(timers.View()), e, ticks, i) ==
                if stop then (View(), timers.View()) else VisitAll(View(), timers.View(), e, ticks, i + 1)
    {
      var tick := Tick(ticks, i);
      ghost var h, s := View(), timers.View();
      stop, answered := VisitSubscriber(i, e, tick);
      if !stop { VisitAllTurn(h, s, e, ticks, i, View(), timers.View()); }
    }

    /** The loop of HandleKeyDown, HandleKeyUp or HandleKeyCancel. */
    method VisitSubscribers(e: KeyEvent, ticks: seq<nat>) returns (handled: bool)
      requires processed != []
      modifies this`subscribers, this`hasEventExecuting, this`notified, timers
      ensures (View(), timers.View()) == VisitAll(old(View()), old(timers.View()), e, ticks, 0)
      ensures handled == VerdictFrom(old(subscribers), e, 0, false)
    {
      var i := 0;
      handled := false;
      ghost var before := subscribers;
      ghost var verdict := VerdictFrom(before, e, 0, false);
      ghost var outcome := VisitAll(View(), timers.View(), e, ticks, 0);
      while i < |subscribers|
        invariant i <= |subscribers|
        invariant VisitAll(View(), timers.View(), e, ticks, i) == outcome
        invariant |subscribers| == |before| && forall j | i <= j < |before| :: subscribers[j] == before[j]
        invariant VerdictFrom(before, e, i, handled) == verdict
      {
        var stop, answered := Turn(i, e, ticks);
        if stop {
          return false;
        }
        handled := handled || answered;
        i := i + 1;
      }
    }

    method OnSubscribeKeyEvent(e: KeyEvent, ticks: seq<nat>) returns (handled: bool)
      modifies this, timers
      ensures (View(), timers.View()) == OnKey(old(View()), old(timers.View()), e, ticks)
      ensures handled <==> Handled(old(View()), e)
    {
      if IsRepeated(View(), e) {
        return true;
      }
      keyEvent := Some(e);
      processed := processed + [e];
      if e.action == ACTION_UP || e.action == ACTION_CANCEL {
        hasEventExecuting := false;
      }
      VerdictMeans(subscribers, e, 0, false);
      assert subscribers[0..] == subscribers;
      handled := VisitSubscribers(e, ticks);
    }

    method SubscribeKeyEvent(session: int, id: int, o: KeyOption) returns (ok: bool)
      modifies this`subscribers, this`nextUid
      ensures View() == Subscribe(old(View()), session, id, o)
      ensures ok <==> id >= 0 && |o.preKeys| <= MAX_PRE_KEY_COUNT
    {
      if id < 0 || |o.preKeys| > MAX_PRE_KEY_COUNT {
        return false;
      }
      for i := 0 to |subscribers|
        invariant forall j | 0 <= j < i :: !(subscribers[j].id == id && subscribers[j].session == session)
        invariant View() == old(View())
      {
        if subscribers[i].id == id && subscribers[i].session == session {
          return true;
        }
      }
      subscribers := subscribers + [Subscriber(nextUid, id, session, o, -1, None)];
      nextUid := nextUid + 1;
      return true;
    }

    method UnsubscribeKeyEvent(session: int, id: int) returns (ok: bool)
      modifies this`subscribers, this`hasEventExecuting, timers
      ensures (View(), timers.View()) == Unsubscribe(old(View()), old(timers.View()), session, id, 0)
      ensures ok <==> exists i :: 0 <= i < |old(subscribers)| && old(subscribers)[i].id == id && old(subscribers)[i].session == session
    {
      for i := 0 to |subscribers|
        invariant View() == old(View()) && timers.View() == old(timers.View())
        invariant forall j | 0 <= j < i :: !(subscribers[j].id == id && subscribers[j].session == session)
        invariant Unsubscribe(View(), timers.View(), session, id, i) == Unsubscribe(old(View()), old(timers.View()), session, id, 0)
      {
        if subscribers[i].id == id && subscribers[i].session == session {
          ClearTimer(i);
          subscribers := subscribers[..i] + subscribers[i + 1..];
          assert subscribers == old(subscribers)[..i] + old(subscribers)[i + 1..];
          return true;
        }
      }
      return false;
    }

    method DeleteSession(session: int)
      modifies this`subscribers, this`hasEventExecuting, timers
      ensures (View(), timers.View()) == OnSessionDelete(old(View()), old(timers.View()), session, 0)
    {
      var i := 0;
      while i < |subscribers|
        invariant i <= |subscribers|
        invariant OnSessionDelete(View(), timers.View(), session, i) == OnSessionDelete(old(View()), old(timers.View()), session, 0)
        decreases |subscribers| - i
      {
        if subscribers[i].session == session {
          ghost var before := subscribers;
          ClearTimer(i);
          subscribers := subscribers[..i] + subscribers[i + 1..];
          assert subscribers == before[..i] + before[i + 1..];
        } else {
          i := i + 1;
        }
      }
    }

    method RemoveSubscriberKeyUpTimer(keyCode: int)
      modifies this`subscribers, this`hasEventExecuting, timers
      ensures (View(), timers.View()) == ClearKey(old(View()), old(timers.View()), keyCode, 0)
    {
      var i := 0;
      while i < |subscribers|
        invariant i <= |subscribers|
        invariant ClearKey(View(), timers.View(), keyCode, i) == ClearKey(old(View()), old(timers.View()), keyCode, 0)
      {
        if subscribers[i].timerId >= 0 && subscribers[i].option.finalKey == keyCode {
          ClearTimer(i);
        }
        i := i + 1;
      }
    }
  }
}
