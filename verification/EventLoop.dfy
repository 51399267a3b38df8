/** Every interleaving of key events, timers, subscriptions and others on one timer list. */
module EventLoop {
  import opened Options
  import opened KeyTypes
  import opened TimerList
  import opened Timers
  import opened Ownership
  import opened KeySequences
  import opened KeyCommands

  datatype Event =
    | Key(event: KeyEvent, ticks: Ticks)
    | Fire(now: int, subscriberTicks: seq<nat>)
    | Pass(tick: nat)
    | Subscribe(session: int, id: int, option: Subscribers.KeyOption)
    | Unsubscribe(session: int, id: int)
    | SessionGone(session: int)
    | OtherAdd(interval: int, repeatCount: int, purpose: int, tick: nat)
    | OtherRemove(id: int)
    | OtherReset(id: int, tick: nat)

  /** Another component only touches timers of its own. */
  predicate NotOurs(s: Timetable, id: int) { HasId(s.items, id) ==> Lookup(s.items, id).callback.Other? }

  /** One turn of the drain loop with the clock reading `now` taken at its start. */
  function FireStep(w: World, now: int, ticks: seq<nat>): World {
    if w.s.items == [] || w.s.items[0].nextCallTime > now || now > w.s.clock then w else
    var t := w.s.items[0];
    var fired := w.(s := FireHead(w.s, now));
    if Stuck(t, now) then fired else RunCallback(fired, t.callback, ticks)
  }

  function Step(w: World, e: Event): World {
    match e
    case Key(event, ticks) => OnKeyEvent(w, event, ticks)
    case Fire(now, ticks) => FireStep(w, now, ticks)
    case Pass(tick) => w.(s := w.s.(clock := w.s.clock + tick))
    case Subscribe(session, id, option) => w.(h := Subscribers.Subscribe(w.h, session, id, option))
    case Unsubscribe(session, id) =>
      var (h, s) := Subscribers.Unsubscribe(w.h, w.s, session, id, 0); w.(h := h, s := s)
    case SessionGone(session) =>
      var (h, s) := Subscribers.OnSessionDelete(w.h, w.s, session, 0); w.(h := h, s := s)
    case OtherAdd(interval, repeatCount, purpose, tick) =>
      w.(s := Add(w.s, interval, repeatCount, Other(purpose), tick).0)
    case OtherRemove(id) => if NotOurs(w.s, id) then w.(s := Remove(w.s, id)) else w
    case OtherReset(id, tick) => if NotOurs(w.s, id) then w.(s := Reset(w.s, id, tick)) else w
  }

  function Run(w: World, es: seq<Event>): World
    decreases |es|
  {
    if es == [] then w else Run(Step(w, es[0]), es[1..])
  }

  /** A service that has just started. */
  predicate Started(w: World) {
    && w.s == Initial(w.s.clock) && w.h == Subscribers.EMPTY
    && w.k.lastTimerId == -1 && w.k.last.finalKey == -1 && w.k.specialTimers == map[]
    && w.k.matcher.keys == [] && w.k.matcher.filter == []
  }

  // ---------- each step keeps the holders' accounts ----------

  /** Timers of other components may come and go. */
  lemma OthersOk(w: World, r: Timetable)
    requires WorldOk(w) && Only(w.s, r, OtherOwner)
    ensures WorldOk(w.(s := r))
  {
    ShortcutFrame(w.k, w.s, r, OtherOwner);
    DelaysFrame(w.k, w.s, r, OtherOwner);
    SequencesFrame(w.k.matcher.filter, w.s, r, OtherOwner);
    OneShotsFrame(w.s, r, OtherOwner);
    Subscribers.SubscribersFrame(w.h, w.s, r, OtherOwner);
  }

  lemma OtherAddOnly(s: Timetable, interval: int, repeatCount: int, purpose: int, tick: nat)
    requires Inv(s)
    ensures Only(s, Add(s, interval, repeatCount, Other(purpose), tick).0, OtherOwner)
  {
    AddKeepsInv(s, interval, repeatCount, Other(purpose), tick);
    var t := TimerItem(FreeId(s.items), Clamp(interval), repeatCount, 0, s.clock + tick + Clamp(interval), Other(purpose), |s.armed|, s.serial);
    KeepInsert(s.items, t, NotOf(OtherOwner));
    var (r, id) := Add(s, interval, repeatCount, Other(purpose), tick);
    assert r.items == s.items || r.items == Insert(s.items, t);
  }

  lemma OtherResetOnly(s: Timetable, id: int, tick: nat)
    requires Inv(s) && NotOurs(s, id)
    ensures Only(s, Reset(s, id, tick), OtherOwner)
  {
    ResetKeepsInv(s, id, tick);
    RemoveOnly(s, id, OtherOwner);
    if HasId(s.items, id) {
      var t := Lookup(s.items, id);
      EraseOrdered(s.items, id);
      KeepInsert(Erase(s.items, id),
        t.(nextCallTime := s.clock + tick + t.interval, callbackCount := 0, epoch := |s.armed|, stamp := s.serial),
        NotOf(OtherOwner));
    }
  }

  /** The fired one-shot timer is the first of any selection it belongs to. */
  lemma FiredIsFirst(s: Timetable, now: int, p: Item -> bool)
    requires Inv(s) && s.items != [] && p(s.items[0]) && s.items[0].repeatCount == 1
    ensures Keep(s.items, p) == [s.items[0]] + Keep(FireHead(s, now).items, p)
    ensures forall t | t in FireHead(s, now).items :: t in s.items
  {
    OneShotFires(s, now);
  }

  lemma FireShortcutOk(w: World, now: int)
    requires WorldOk(w) && w.s.items != [] && now <= w.s.clock && w.s.items[0].callback.LaunchShortcut?
    ensures WorldOk(w.(k := Launch(w.k, w.s.items[0].callback.shortcut), s := FireHead(w.s, now)))
  {
    var t := w.s.items[0];
    assert t in w.s.items && OneShot(t);
    FireOnly(w.s, now);
    FiredIsFirst(w.s, now, OfShortcut());
    ShortcutStep(w, Launch(w.k, t.callback.shortcut), FireHead(w.s, now));
  }

  lemma FireSequenceOk(w: World, now: int)
    requires WorldOk(w) && w.s.items != [] && now <= w.s.clock && w.s.items[0].callback.LaunchSequence?
    ensures WorldOk(w.(k := w.k.(matcher := Cleared(w.k.matcher)), s := FireHead(w.s, now)))
  {
    var t := w.s.items[0];
    assert t in w.s.items && OneShot(t);
    FireOnly(w.s, now);
    FiredIsFirst(w.s, now, (x: Item) => x.callback.LaunchSequence?);
    SequenceStep(w, Cleared(w.k.matcher), FireHead(w.s, now));
  }

  /** When a volume-key timer fires, the id its callback pops is the id of that timer. */
  lemma DelayLinePopsTheFired(w: World)
    requires WorldOk(w) && w.s.items != [] && w.s.items[0].callback.DelayedKey?
    ensures var ids := Listed(w.k, w.s.items[0].callback.event.keyCode);
            ids != [] && ids[0] == w.s.items[0].id
  {
    var t := w.s.items[0];
    var c := t.callback.event.keyCode;
    assert Keep(w.s.items, OfDelayed(c)) == [t] + Keep(w.s.items[1..], OfDelayed(c));
    assert Ids(Keep(w.s.items, OfDelayed(c))) == Listed(w.k, c);
  }

  /** The delay line after its head timer fired and its id was popped. */
  function Popped(k: KeyCommand, c: int): KeyCommand
    requires Listed(k, c) != []
  {
    k.(specialTimers := k.specialTimers[c := Listed(k, c)[1..]])
  }

  lemma PoppedDelaysOk(k: KeyCommand, s: Timetable, f: Timetable, c: int)
    requires DelaysOk(k, s) && s.items != [] && OfDelayed(c)(s.items[0]) && f.items == s.items[1..] && Listed(k, c) != []
    ensures DelaysOk(Popped(k, c), f)
  {
    forall d: int ensures Ids(Keep(f.items, OfDelayed(d))) == Listed(Popped(k, c), d) {
      assert Ids(Keep(s.items, OfDelayed(d))) == Listed(k, d);
      if d == c {
        assert Keep(s.items, OfDelayed(c)) == [s.items[0]] + Keep(f.items, OfDelayed(c));
        assert Ids(Keep(f.items, OfDelayed(c))) == Ids(Keep(s.items, OfDelayed(c)))[1..];
      }
    }
  }

  lemma FireDelayedOk(w: World, now: int)
    requires WorldOk(w) && w.s.items != [] && now <= w.s.clock && w.s.items[0].callback.DelayedKey?
    ensures var c := w.s.items[0].callback.event.keyCode;
            Listed(w.k, c) != [] && WorldOk(w.(k := Popped(w.k, c), s := FireHead(w.s, now)))
  {
    var t := w.s.items[0];
    var c := t.callback.event.keyCode;
    assert t in w.s.items && OneShot(t);
    DelayLinePopsTheFired(w);
    FireOnly(w.s, now);
    OneShotFires(w.s, now);
    PoppedDelaysOk(w.k, w.s, FireHead(w.s, now), c);
    DelayStep(w, Popped(w.k, c), FireHead(w.s, now));
  }

  lemma {:induction false} FireStepOk(w: World, now: int, ticks: seq<nat>)
    requires WorldOk(w)
    ensures WorldOk(FireStep(w, now, ticks))
  {
    if w.s.items != [] && w.s.items[0].nextCallTime <= now <= w.s.clock {
      var t := w.s.items[0];
      assert t in w.s.items && OneShot(t);
      match t.callback
      case LaunchShortcut(_) => FireShortcutOk(w, now);
      case LaunchSequence(_) => FireSequenceOk(w, now);
      case DelayedKey(e) =>
        FireDelayedOk(w, now);
        TellOk(w.(k := Popped(w.k, e.keyCode), s := FireHead(w.s, now)), e, ticks);
      case Notify(uid, _, _) =>
        Subscribers.FiringNotifies(w.h, w.s, now);
        TheirsOk(w, Subscribers.OnTimer(w.h, uid, 0), FireHead(w.s, now));
        NotifyIsOneShot(w, now);
      case Other(_) =>
        FireOnly(w.s, now);
        OthersOk(w, FireHead(w.s, now));
    }
  }

  lemma NotifyIsOneShot(w: World, now: int)
    requires WorldOk(w) && w.s.items != [] && now <= w.s.clock && w.s.items[0].callback.Notify?
    ensures !Stuck(w.s.items[0], now)
  {
    var t := w.s.items[0];
    assert t in w.s.items && ItemOk(w.s, t);
    var i := Subscribers.HolderOf(w.h, w.s, t);
  }

  /** A step of another component, or of the clock. */
  lemma OtherStepOk(w: World, e: Event)
    requires WorldOk(w) && (e.Pass? || e.OtherAdd? || e.OtherRemove? || e.OtherReset?)
    ensures WorldOk(Step(w, e))
  {
    if e.Pass? {
      TickKeepsInv(w.s, w.s.clock + e.tick);
      OthersOk(w, w.s.(clock := w.s.clock + e.tick));
    } else if e.OtherAdd? {
      OtherAddOnly(w.s, e.interval, e.repeatCount, e.purpose, e.tick);
      OthersOk(w, Add(w.s, e.interval, e.repeatCount, Other(e.purpose), e.tick).0);
    } else if NotOurs(w.s, e.id) {
      if e.OtherRemove? {
        RemoveOnly(w.s, e.id, OtherOwner);
        OthersOk(w, Remove(w.s, e.id));
      } else {
        OtherResetOnly(w.s, e.id, e.tick);
        OthersOk(w, Reset(w.s, e.id, e.tick));
      }
    }
  }

  lemma {:induction false} StepOk(w: World, e: Event)
    requires WorldOk(w)
    ensures WorldOk(Step(w, e))
  {
    match e
    case Key(event, ticks) => OnKeyEventOk(w, event, ticks);
    case Fire(now, ticks) => FireStepOk(w, now, ticks);
    case Subscribe(session, id, option) =>
      Subscribers.SubscribeOk(w.h, w.s, session, id, option);
    case Unsubscribe(session, id) =>
      Subscribers.UnsubscribeOk(w.h, w.s, session, id, 0);
      var (h, s) := Subscribers.Unsubscribe(w.h, w.s, session, id, 0);
      TheirsOk(w, h, s);
    case SessionGone(session) =>
      Subscribers.SessionDeleteOk(w.h, w.s, session, 0);
      var (h, s) := Subscribers.OnSessionDelete(w.h, w.s, session, 0);
      TheirsOk(w, h, s);
    case _ => OtherStepOk(w, e);
  }

  lemma StartedOk(w: World)
    requires Started(w)
    ensures WorldOk(w)
  {
  }

  lemma {:induction false} RunOk(w: World, es: seq<Event>)
    requires WorldOk(w)
    ensures WorldOk(Run(w, es))
    decreases |es|
  {
    if es != [] { StepOk(w, es[0]); RunOk(Step(w, es[0]), es[1..]); }
  }

  /** The worlds of a run, one before each event and one after the last. */
  ghost predicate Trace(ws: seq<World>, es: seq<Event>) {
    && |ws| == |es| + 1 && Started(ws[0])
    && forall i | 0 <= i < |es| :: ws[i + 1] == Step(ws[i], es[i])
  }

  lemma {:induction false} TraceOk(ws: seq<World>, es: seq<Event>, n: nat)
    requires Trace(ws, es) && n < |ws|
    ensures WorldOk(ws[n])
  {
    if n == 0 {
      StartedOk(ws[0]);
    } else {
      TraceOk(ws, es, n - 1);
      StepOk(ws[n - 1], es[n - 1]);
    }
  }

  /** Every run has its worlds, and they end where it does. */
  lemma {:induction false} TraceOfRun(w: World, es: seq<Event>) returns (ws: seq<World>)
    requires Started(w)
    ensures Trace(ws, es) && ws[0] == w && ws[|es|] == Run(w, es)
  {
    ws := WorldsFrom(w, es);
  }

  lemma {:induction false} WorldsFrom(w: World, es: seq<Event>) returns (ws: seq<World>)
    ensures |ws| == |es| + 1 && ws[0] == w && ws[|es|] == Run(w, es)
    ensures forall i | 0 <= i < |es| :: ws[i + 1] == Step(ws[i], es[i])
    decreases |es|
  {
    if es == [] {
      ws := [w];
    } else {
      var rest := WorldsFrom(Step(w, es[0]), es[1..]);
      ws := [w] + rest;
      forall i | 0 <= i < |es| ensures ws[i + 1] == Step(ws[i], es[i]) {
        if i > 0 { assert ws[i + 1] == rest[i] && ws[i] == rest[i - 1] && es[i] == es[1..][i - 1]; }
      }
    }
  }

  // ---------- what this means in every run ----------

  /** The places where a timer id is kept. */
  datatype Holder = LastMatched | InFilter(i: nat) | InDelayLine(keyCode: int, i: nat) | OfSubscriber(i: nat)

  predicate Holds(w: World, p: Holder, id: int) {
    id >= 0 &&
    match p
    case LastMatched => w.k.lastTimerId == id
    case InFilter(i) => i < |w.k.matcher.filter| && w.k.matcher.filter[i].timerId == id
    case InDelayLine(c, i) => i < |Listed(w.k, c)| && Listed(w.k, c)[i] == id
    case OfSubscriber(i) => i < |w.h.subscribers| && w.h.subscribers[i].timerId == id
  }

  /** The timer was created for this holder. */
  predicate MadeFor(w: World, p: Holder, cb: Callback) {
    match p
    case LastMatched => cb == LaunchShortcut(w.k.last)
    case InFilter(i) => i < |w.k.matcher.filter| && cb == LaunchSequence(w.k.matcher.filter[i].sequence)
    case InDelayLine(c, _) => cb.DelayedKey? && cb.event.keyCode == c
    case OfSubscriber(i) =>
      i < |w.h.subscribers| && cb.Notify? && cb.subscriber == w.h.subscribers[i].uid
      && w.h.subscribers[i].keyEvent == Some(cb.armedBy)
  }

  lemma HeldIsLive(w: World, p: Holder, id: int)
    requires WorldOk(w) && Holds(w, p, id)
    ensures exists t :: t in w.s.items && t.id == id && MadeFor(w, p, t.callback)
  {
    match p
    case LastMatched =>
      KeepMembers(w.s.items, OfShortcut());
      var t := Keep(w.s.items, OfShortcut())[0];
      assert t in Keep(w.s.items, OfShortcut());
    case InFilter(i) =>
      assert w.k.matcher.filter[i] in w.k.matcher.filter;
    case InDelayLine(c, i) =>
      KeepMembers(w.s.items, OfDelayed(c));
      var l := Keep(w.s.items, OfDelayed(c));
      assert Ids(l) == Listed(w.k, c);
      assert l[i] in l && l[i].id == id;
    case OfSubscriber(i) =>
      var x := w.h.subscribers[i];
      var mine := Subscribers.Mine(w.s, x.uid);
      KeepMembers(w.s.items, Subscribers.For(x.uid));
      assert Subscribers.SubscriberOk(x, mine, w.h.processed);
      assert mine[0] in mine;
  }

  /** A timer made for two holders that keep its id shows them to be one. */
  lemma SameHolder(w: World, p: Holder, q: Holder, id: int, cb: Callback)
    requires WorldOk(w) && Holds(w, p, id) && Holds(w, q, id) && MadeFor(w, p, cb) && MadeFor(w, q, cb)
    ensures p == q
  {
    if p.InDelayLine? && q.InDelayLine? { SameSlot(w, p.keyCode, p.i, q.i); }
  }

  lemma HoldersDiffer(w: World, p: Holder, q: Holder, id: int)
    requires WorldOk(w) && Holds(w, p, id) && Holds(w, q, id)
    ensures p == q
  {
    HeldIsLive(w, p, id);
    HeldIsLive(w, q, id);
    var t :| t in w.s.items && t.id == id && MadeFor(w, p, t.callback);
    var u :| u in w.s.items && u.id == id && MadeFor(w, q, u.callback);
    IdNamesOne(w.s.items, t, u);
    SameHolder(w, p, q, id, t.callback);
  }

  lemma SameSlot(w: World, c: int, i: nat, j: nat)
    requires WorldOk(w) && i < |Listed(w.k, c)| && j < |Listed(w.k, c)| && Listed(w.k, c)[i] == Listed(w.k, c)[j]
    ensures i == j
  {
    var l := Keep(w.s.items, OfDelayed(c));
    KeepOrdered(w.s.items, OfDelayed(c));
    assert Ids(l) == Listed(w.k, c);
    if i < j { DistinctAt(l, i, j); }
    if j < i { DistinctAt(l, j, i); }
  }

  /** In every run, ids being reused at will, each id kept by the key commands or a subscriber
      names a live timer created for that very holder, and no two holders keep the same id. */
  lemma RunOwnership(w: World, es: seq<Event>, p: Holder, q: Holder, id: int)
    requires Started(w) && Holds(Run(w, es), p, id)
    ensures var r := Run(w, es);
            && (exists t :: t in r.s.items && t.id == id && MadeFor(r, p, t.callback))
            && (Holds(r, q, id) ==> p == q)
  {
    StartedOk(w);
    RunOk(w, es);
    HeldIsLive(Run(w, es), p, id);
    if Holds(Run(w, es), q, id) { HoldersDiffer(Run(w, es), p, q, id); }
  }

  /** In every run at most one shortcut launch is pending, the one of lastMatchedKey_; every
      delay timer of a key is listed for it, in the order in which they will fire; and when
      one fires the id popped is its own. */
  lemma RunPendingTimers(w: World, es: seq<Event>, c: int)
    requires Started(w)
    ensures var r := Run(w, es);
            && |Keep(r.s.items, OfShortcut())| <= 1
            && (forall t | t in r.s.items && t.callback.LaunchShortcut? :: t.id == r.k.lastTimerId)
            && Listed(r.k, c) == Ids(Keep(r.s.items, OfDelayed(c)))
            && (r.s.items != [] && r.s.items[0].callback.DelayedKey? ==>
                  var ids := Listed(r.k, r.s.items[0].callback.event.keyCode);
                  ids != [] && ids[0] == r.s.items[0].id)
  {
    StartedOk(w);
    RunOk(w, es);
    var r := Run(w, es);
    KeepMembers(r.s.items, OfShortcut());
    forall t | t in r.s.items && t.callback.LaunchShortcut? ensures t.id == r.k.lastTimerId {
      assert t in Keep(r.s.items, OfShortcut());
    }
    if r.s.items != [] && r.s.items[0].callback.DelayedKey? { DelayLinePopsTheFired(r); }
  }

  /** In every run a subscriber timer about to fire belongs to a current subscriber and carries
      the event that armed it; if it is a press-and-hold one, every event processed since that
      one was the held key reported down again, or a release that does not end holds (see
      Subscribers.ReleaseEndsHoldsIff). */
  lemma RunHoldNotifications(w: World, es: seq<Event>)
    requires Started(w)
    ensures var r := Run(w, es);
            r.s.items != [] && r.s.items[0].callback.Notify? ==>
              var cb := r.s.items[0].callback;
              exists i :: 0 <= i < |r.h.subscribers| && r.h.subscribers[i].uid == cb.subscriber
                && r.h.subscribers[i].keyEvent == Some(cb.armedBy)
                && (r.h.subscribers[i].option.isFinalKeyDown ==>
                      Subscribers.Holding(r.h.subscribers[i].option, r.h.processed, cb.at))
  {
    StartedOk(w);
    RunOk(w, es);
    var r := Run(w, es);
    if r.s.items != [] && r.s.items[0].callback.Notify? {
      var i := Subscribers.HolderOf(r.h, r.s, r.s.items[0]);
    }
  }

  /** In every run the history is well formed, and on every event it records, scanning the
      filter finds what scanning the whole configuration would find. */
  lemma RunRefinesRescan(w: World, es: seq<Event>, e: KeyEvent)
    requires Started(w)
    ensures var r := Run(w, es);
            var (m, s, recorded) := Record(r.k.matcher, r.s, e);
            && HistoryOk(r.k.matcher.keys)
            && (recorded ==>
                  && Select(Named(Candidates(m)), CompletedBy(m.keys)) == Select(m.sequences, CompletedBy(m.keys))
                  && Select(Named(Candidates(m)), ExtendedBy(m.keys)) == Select(m.sequences, ExtendedBy(m.keys)))
  {
    StartedOk(w);
    RunOk(w, es);
    var r := Run(w, es);
    FilterRefinesRescan(r.k.matcher, r.s, e, []);
  }
}
