/** Who intercepts, monitors and subscribes, told from the requests and disconnections of a run. */
module HandlerTables {
  import opened Options
  import opened Sessions

  datatype Kind = Interception | Monitoring

  function Table(s: Server, k: Kind): map<Session, int> { if k.Interception? then s.interceptors else s.monitors }

  predicate Adds(e: Event, k: Kind) { if k.Interception? then e.AddInterceptor? else e.AddMonitor? }

  predicate Removes(e: Event, k: Kind) { if k.Interception? then e.RemoveInterceptor? else e.RemoveMonitor? }

  /** The event is a request, served for session `x`. */
  predicate Serves(s: Server, e: Event, x: Session) { !e.Connect? && !e.Disconnect? && GetSessionByPid(s, e.pid) == Some(x) }

  /** Session `x` has an entry in the table, for the events `t`. */
  predicate Entry(s: Server, k: Kind, x: Session, t: int) { x in Table(s, k) && Table(s, k)[x] == t }

  /** The request gives session `x` an entry for the events `t`: an addition while fewer than 16
      have one, or a removal that leaves some of the events of its entry. */
  predicate Gives(s: Server, e: Event, k: Kind, x: Session, t: int) {
    && Serves(s, e, x) && t != 0
    && ((Adds(e, k) && e.eventType == t && |Table(s, k)| < 16) || (Removes(e, k) && e.eventType == t && x in Table(s, k)))
  }

  /** The entry of session `x` goes or gives way to another. */
  predicate Takes(s: Server, e: Event, k: Kind, x: Session) {
    || (e.Disconnect? && e.fd == x.fd)
    || (Serves(s, e, x) && (Removes(e, k) || (Adds(e, k) && e.eventType != 0 && |Table(s, k)| < 16)))
  }

  lemma DisconnectEntry(s: Server, fd: int, k: Kind, x: Session, t: int)
    requires Inv(s)
    ensures Entry(DelSession(s, fd), k, x, t) <==> Entry(s, k, x, t) && fd != x.fd
  {
    if Entry(s, k, x, t) { assert Present(s, x); }
  }

  predicate At(m: map<Session, int>, x: Session, t: int) { x in m && m[x] == t }

  lemma EnterMeans(m: map<Session, int>, y: Session, eventType: int, x: Session, t: int)
    ensures At(Enter(m, y, eventType), x, t) <==> if x == y && |m| < 16 then t == eventType else At(m, x, t)
  {
  }

  lemma LeaveMeans(m: map<Session, int>, y: Session, eventType: int, x: Session, t: int)
    ensures At(Leave(m, y, eventType), x, t) <==>
            if x == y && x in m then t == eventType != 0 else At(m, x, t)
  {
  }

  lemma RequestEntry(s: Server, e: Event, k: Kind, y: Session, x: Session, t: int)
    requires !e.Connect? && !e.Disconnect? && GetSessionByPid(s, e.pid) == Some(y)
    ensures Entry(Request(s, e, y), k, x, t) <==> Gives(s, e, k, x, t) || (Entry(s, k, x, t) && !Takes(s, e, k, x))
  {
    if Adds(e, k) && e.eventType != 0 {
      EnterMeans(Table(s, k), y, e.eventType, x, t);
      assert Table(Request(s, e, y), k) == Enter(Table(s, k), y, e.eventType);
    } else if Removes(e, k) {
      LeaveMeans(Table(s, k), y, e.eventType, x, t);
      assert Table(Request(s, e, y), k) == Leave(Table(s, k), y, e.eventType);
    } else {
      assert Table(Request(s, e, y), k) == Table(s, k);
    }
  }

  lemma StepEntry(s: Server, e: Event, k: Kind, x: Session, t: int)
    requires Inv(s)
    ensures Entry(Step(s, e), k, x, t) <==> Gives(s, e, k, x, t) || (Entry(s, k, x, t) && !Takes(s, e, k, x))
  {
    if e.Disconnect? {
      DisconnectEntry(s, e.fd, k, x, t);
    } else if !e.Connect? && GetSessionByPid(s, e.pid).Some? {
      RequestEntry(s, e, k, GetSessionByPid(s, e.pid).value, x, t);
    }
  }

  /** The states of a run. */
  ghost predicate Trace(ss: seq<Server>, es: seq<Event>) {
    && |ss| == |es| + 1 && ss[0] == START
    && forall i | 0 <= i < |es| :: Possible(ss[i], es[i]) && ss[i + 1] == Step(ss[i], es[i])
  }

  lemma {:induction false} TraceInv(ss: seq<Server>, es: seq<Event>, n: nat)
    requires Trace(ss, es) && n <= |es|
    ensures Inv(ss[n])
  {
    if n > 0 {
      TraceInv(ss, es, n - 1);
      StepKeepsInv(ss[n - 1], es[n - 1]);
    }
  }

  ghost predicate GivenAndKept(ss: seq<Server>, es: seq<Event>, n: nat, k: Kind, x: Session, t: int)
    requires n <= |es| < |ss|
  {
    exists i :: 0 <= i < n && Gives(ss[i], es[i], k, x, t) && forall j | i < j < n :: !Takes(ss[j], es[j], k, x)
  }

  lemma KeptSnoc(ss: seq<Server>, es: seq<Event>, n: nat, k: Kind, x: Session, t: int)
    requires 0 < n <= |es| < |ss|
    ensures GivenAndKept(ss, es, n, k, x, t) <==>
            || Gives(ss[n - 1], es[n - 1], k, x, t)
            || (GivenAndKept(ss, es, n - 1, k, x, t) && !Takes(ss[n - 1], es[n - 1], k, x))
  {
    if GivenAndKept(ss, es, n - 1, k, x, t) && !Takes(ss[n - 1], es[n - 1], k, x) {
      var i :| 0 <= i < n - 1 && Gives(ss[i], es[i], k, x, t) && forall j | i < j < n - 1 :: !Takes(ss[j], es[j], k, x);
      assert GivenAndKept(ss, es, n, k, x, t);
    }
  }

  /** In every run a session intercepts, or monitors, certain events exactly if a request gave it
      that entry and since then it neither disconnected nor had its entry taken or changed. */
  lemma {:induction false} EntryExactlyWhen(ss: seq<Server>, es: seq<Event>, n: nat, k: Kind, x: Session, t: int)
    requires Trace(ss, es) && n <= |es|
    ensures Entry(ss[n], k, x, t) <==> GivenAndKept(ss, es, n, k, x, t)
  {
    if n > 0 {
      EntryExactlyWhen(ss, es, n - 1, k, x, t);
      TraceInv(ss, es, n - 1);
      StepEntry(ss[n - 1], es[n - 1], k, x, t);
      KeptSnoc(ss, es, n, k, x, t);
    }
  }

  // ---------- subscriptions ----------

  predicate Subscribes(s: Server, e: Event, x: Session, id: int) { Serves(s, e, x) && e.Subscribe? && e.id == id >= 0 }

  predicate Unsubscribes(s: Server, e: Event, x: Session, id: int) {
    (e.Disconnect? && e.fd == x.fd) || (Serves(s, e, x) && e.Unsubscribe? && e.id == id)
  }

  predicate Once(l: seq<(Session, int)>) { forall i, j | 0 <= i < j < |l| :: l[i] != l[j] }

  lemma {:induction false} DropExactly(l: seq<(Session, int)>, z: (Session, int), y: (Session, int))
    requires Once(l)
    ensures y in Drop(l, z) <==> y in l && y != z
    ensures Once(Drop(l, z))
  {
    if l != [] {
      assert Once(l[1..]) by { assert forall i | 0 <= i < |l| - 1 :: l[1..][i] == l[i + 1]; }
      assert l[0] !in l[1..] by { assert forall i | 0 <= i < |l| - 1 :: l[1..][i] == l[i + 1]; }
      assert y in l <==> y == l[0] || y in l[1..];
      if l[0] != z {
        DropExactly(l[1..], z, y);
        DropExactly(l[1..], z, l[0]);
      }
    }
  }

  lemma {:induction false} WithoutOnce(l: seq<(Session, int)>, x: Session)
    requires Once(l)
    ensures Once(WithoutSession(l, x))
  {
    if l != [] {
      assert Once(l[1..]) by { assert forall i | 0 <= i < |l| - 1 :: l[1..][i] == l[i + 1]; }
      assert l[0] !in l[1..] by { assert forall i | 0 <= i < |l| - 1 :: l[1..][i] == l[i + 1]; }
      WithoutOnce(l[1..], x);
      WithoutSessionMembers(l[1..], x, l[0]);
    }
  }

  lemma DisconnectSubscriber(s: Server, fd: int, x: Session, id: int)
    requires Inv(s) && Once(s.subscribers)
    ensures Once(DelSession(s, fd).subscribers)
    ensures (x, id) in DelSession(s, fd).subscribers <==> (x, id) in s.subscribers && fd != x.fd
  {
    if fd in s.sessionsMap {
      WithoutOnce(s.subscribers, s.sessionsMap[fd]);
      WithoutSessionMembers(s.subscribers, s.sessionsMap[fd], (x, id));
    }
    if (x, id) in s.subscribers { assert Present(s, (x, id).0); }
  }

  lemma RequestSubscriber(s: Server, e: Event, y: Session, x: Session, id: int)
    requires Once(s.subscribers) && !e.Connect? && !e.Disconnect? && GetSessionByPid(s, e.pid) == Some(y)
    ensures Once(Request(s, e, y).subscribers)
    ensures (x, id) in Request(s, e, y).subscribers <==>
            Subscribes(s, e, x, id) || ((x, id) in s.subscribers && !Unsubscribes(s, e, x, id))
  {
    if e.Unsubscribe? { DropExactly(s.subscribers, (y, e.id), (x, id)); }
  }

  lemma StepSubscriber(s: Server, e: Event, x: Session, id: int)
    requires Inv(s) && Once(s.subscribers)
    ensures Once(Step(s, e).subscribers)
    ensures (x, id) in Step(s, e).subscribers <==> Subscribes(s, e, x, id) || ((x, id) in s.subscribers && !Unsubscribes(s, e, x, id))
  {
    if e.Disconnect? {
      DisconnectSubscriber(s, e.fd, x, id);
    } else if !e.Connect? && GetSessionByPid(s, e.pid).Some? {
      RequestSubscriber(s, e, GetSessionByPid(s, e.pid).value, x, id);
    }
  }

  ghost predicate SubscribedAndKept(ss: seq<Server>, es: seq<Event>, n: nat, x: Session, id: int)
    requires n <= |es| < |ss|
  {
    exists i :: 0 <= i < n && Subscribes(ss[i], es[i], x, id) && forall j | i < j < n :: !Unsubscribes(ss[j], es[j], x, id)
  }

  lemma SubscribedSnoc(ss: seq<Server>, es: seq<Event>, n: nat, x: Session, id: int)
    requires 0 < n <= |es| < |ss|
    ensures SubscribedAndKept(ss, es, n, x, id) <==>
            || Subscribes(ss[n - 1], es[n - 1], x, id)
            || (SubscribedAndKept(ss, es, n - 1, x, id) && !Unsubscribes(ss[n - 1], es[n - 1], x, id))
  {
    if SubscribedAndKept(ss, es, n - 1, x, id) && !Unsubscribes(ss[n - 1], es[n - 1], x, id) {
      var i :| 0 <= i < n - 1 && Subscribes(ss[i], es[i], x, id) && forall j | i < j < n - 1 :: !Unsubscribes(ss[j], es[j], x, id);
      assert SubscribedAndKept(ss, es, n, x, id);
    }
  }

  /** In every run a subscription is listed exactly if its session asked for it and has neither
      disconnected nor taken it back since; and no subscription is listed twice. */
  lemma {:induction false} SubscribedExactlyWhen(ss: seq<Server>, es: seq<Event>, n: nat, x: Session, id: int)
    requires Trace(ss, es) && n <= |es|
    ensures (x, id) in ss[n].subscribers <==> SubscribedAndKept(ss, es, n, x, id)
    ensures Once(ss[n].subscribers)
  {
    if n > 0 {
      SubscribedExactlyWhen(ss, es, n - 1, x, id);
      TraceInv(ss, es, n - 1);
      StepSubscriber(ss[n - 1], es[n - 1], x, id);
      SubscribedSnoc(ss, es, n, x, id);
    }
  }
}
