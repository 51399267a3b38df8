/** The session table of the socket server and the tables of other handlers that refer to its
    sessions. */
module Sessions {
  import opened Options

  const MAX_N_INPUT_HANDLERS := 16
  const INVALID_FD := -1

  /** A session object; `token` is its identity. */
  datatype Session = Session(token: nat, fd: int, pid: int)

  /** Entries of the monitor and interceptor sets are kept by session; a subscriber is a session
      and the id it chose.  The three flags say whose deletion callback is registered. */
  datatype Server = Server(
    sessionsMap: map<int, Session>, idxPidMap: map<int, int>, tokens: nat,
    interceptors: map<Session, int>, monitors: map<Session, int>, subscribers: seq<(Session, int)>,
    interceptorsTold: bool, monitorsTold: bool, subscribersTold: bool)

  const START := Server(map[], map[], 0, map[], map[], [], false, false, false)

  function GetClientFd(s: Server, pid: int): int { if pid in s.idxPidMap then s.idxPidMap[pid] else INVALID_FD }

  function GetSession(s: Server, fd: int): Option<Session> {
    if fd in s.sessionsMap then Some(s.sessionsMap[fd]) else None
  }

  function GetSessionByPid(s: Server, pid: int): Option<Session> {
    var fd := GetClientFd(s, pid);
    if fd <= 0 then None else GetSession(s, fd)
  }

  /** AddSession for a new session object. */
  function AddSession(s: Server, fd: int, pid: int): Server {
    if fd < 0 || pid <= 0 then s
    else s.(idxPidMap := s.idxPidMap[pid := fd], sessionsMap := s.sessionsMap[fd := Session(s.tokens, fd, pid)],
            tokens := s.tokens + 1)
  }

  function WithoutSession(l: seq<(Session, int)>, x: Session): seq<(Session, int)> {
    if l == [] then [] else if l[0].0 == x then WithoutSession(l[1..], x) else [l[0]] + WithoutSession(l[1..], x)
  }

  /** NotifySessionDeleted: the registered callbacks drop the session's entries. */
  function Notify(s: Server, x: Session): Server {
    s.(interceptors := if s.interceptorsTold then s.interceptors - {x} else s.interceptors,
       monitors := if s.monitorsTold then s.monitors - {x} else s.monitors,
       subscribers := if s.subscribersTold then WithoutSession(s.subscribers, x) else s.subscribers)
  }

  /** DelSession. */
  function DelSession(s: Server, fd: int): Server {
    if fd < 0 || fd !in s.sessionsMap then s else
    var x := s.sessionsMap[fd];
    var s1 := if x.pid > 0 then s.(idxPidMap := s.idxPidMap - {x.pid}) else s;
    var s2 := Notify(s1, x);
    s2.(sessionsMap := s2.sessionsMap - {fd})
  }

  /** AddMonitor and AddInterceptor on their sets: full sets refuse, even an update. */
  function Enter(t: map<Session, int>, x: Session, eventType: int): map<Session, int> {
    if |t| >= MAX_N_INPUT_HANDLERS then t else t[x := eventType]
  }

  /** RemoveMonitor and RemoveInterceptor: no event type left removes, another one replaces. */
  function Leave(t: map<Session, int>, x: Session, eventType: int): map<Session, int> {
    if x !in t then t else if eventType == 0 then t - {x} else t[x := eventType]
  }

  datatype Event =
    | Connect(fd: int, pid: int)
    | Disconnect(fd: int)
    | AddInterceptor(pid: int, eventType: int)
    | RemoveInterceptor(pid: int, eventType: int)
    | AddMonitor(pid: int, eventType: int)
    | RemoveMonitor(pid: int, eventType: int)
    | Subscribe(pid: int, id: int)
    | Unsubscribe(pid: int, id: int)

  /** The kernel hands out only descriptors that are not open. */
  predicate Possible(s: Server, e: Event) { e.Connect? ==> e.fd !in s.sessionsMap }

  function Drop(l: seq<(Session, int)>, y: (Session, int)): seq<(Session, int)> {
    if l == [] then [] else if l[0] == y then l[1..] else [l[0]] + Drop(l[1..], y)
  }

  /** What a request of process `pid` does for the session found for it. */
  function Request(s: Server, e: Event, x: Session): Server {
    match e
    case AddInterceptor(_, eventType) =>
      if eventType == 0 then s
      else s.(interceptorsTold := true, interceptors := Enter(s.interceptors, x, eventType))
    case RemoveInterceptor(_, eventType) => s.(interceptors := Leave(s.interceptors, x, eventType))
    case AddMonitor(_, eventType) =>
      if eventType == 0 then s
      else s.(monitorsTold := true, monitors := Enter(s.monitors, x, eventType))
    case RemoveMonitor(_, eventType) => s.(monitors := Leave(s.monitors, x, eventType))
    case Subscribe(_, id) =>
      if id < 0 then s
      else s.(subscribersTold := true, subscribers := if (x, id) in s.subscribers then s.subscribers else s.subscribers + [(x, id)])
    case Unsubscribe(_, id) => s.(subscribers := Drop(s.subscribers, (x, id)))
    case _ => s
  }

  /** A request is served for the session found by the pid of the calling process, or refused. */
  function Step(s: Server, e: Event): Server {
    match e
    case Connect(fd, pid) => AddSession(s, fd, pid)
    case Disconnect(fd) => DelSession(s, fd)
    case _ =>
      var found := GetSessionByPid(s, e.pid);
      if found.None? then s else Request(s, e, found.value)
  }

  // ---------- no table outlives a session ----------

  predicate Present(s: Server, x: Session) { x.fd in s.sessionsMap && s.sessionsMap[x.fd] == x }

  ghost predicate Inv(s: Server) {
    && (forall fd | fd in s.sessionsMap :: fd >= 0 && s.sessionsMap[fd].fd == fd && s.sessionsMap[fd].pid > 0)
    && (forall pid | pid in s.idxPidMap :: s.idxPidMap[pid] in s.sessionsMap && s.sessionsMap[s.idxPidMap[pid]].pid == pid)
    && (forall x | x in s.interceptors :: s.interceptorsTold && Present(s, x))
    && (forall x | x in s.monitors :: s.monitorsTold && Present(s, x))
    && (forall y | y in s.subscribers :: s.subscribersTold && Present(s, y.0))
  }

  lemma {:induction false} WithoutSessionMembers(l: seq<(Session, int)>, x: Session, y: (Session, int))
    ensures y in WithoutSession(l, x) <==> y in l && y.0 != x
  {
    if l != [] { assert l == [l[0]] + l[1..]; WithoutSessionMembers(l[1..], x, y); }
  }

  lemma {:induction false} DropMembers(l: seq<(Session, int)>, z: (Session, int), y: (Session, int))
    requires y in Drop(l, z)
    ensures y in l
  {
    if l[0] != z && y != l[0] { DropMembers(l[1..], z, y); }
  }

  lemma DisconnectKeepsInv(s: Server, fd: int)
    requires Inv(s)
    ensures Inv(DelSession(s, fd))
  {
    var r := DelSession(s, fd);
    if 0 <= fd && fd in s.sessionsMap {
      var x := s.sessionsMap[fd];
      forall y | y in r.subscribers ensures r.subscribersTold && Present(r, y.0) {
        WithoutSessionMembers(s.subscribers, x, y);
      }
      forall y | y in r.interceptors ensures r.interceptorsTold && Present(r, y) { assert y in s.interceptors && y != x; }
      forall y | y in r.monitors ensures r.monitorsTold && Present(r, y) { assert y in s.monitors && y != x; }
    }
  }

  lemma ConnectKeepsInv(s: Server, fd: int, pid: int)
    requires Inv(s) && fd !in s.sessionsMap
    ensures Inv(AddSession(s, fd, pid))
  {
  }

  /** Entries made or dropped for present sessions. */
  lemma TablesKeepInv(s: Server, r: Server)
    requires Inv(s) && r.sessionsMap == s.sessionsMap && r.idxPidMap == s.idxPidMap
    requires forall x | x in r.interceptors :: r.interceptorsTold && Present(s, x)
    requires forall x | x in r.monitors :: r.monitorsTold && Present(s, x)
    requires forall y | y in r.subscribers :: r.subscribersTold && Present(s, y.0)
    ensures Inv(r)
  {
  }

  lemma UnsubscribeKeepsInv(s: Server, pid: int, id: int, x: Session)
    requires Inv(s) && Present(s, x)
    ensures Inv(Request(s, Unsubscribe(pid, id), x))
  {
    var r := Request(s, Unsubscribe(pid, id), x);
    forall y | y in r.subscribers ensures y in s.subscribers { DropMembers(s.subscribers, (x, id), y); }
    TablesKeepInv(s, r);
  }

  lemma InterceptorsKeepInv(s: Server, e: Event, x: Session)
    requires Inv(s) && Present(s, x) && (e.AddInterceptor? || e.RemoveInterceptor?)
    ensures Inv(Request(s, e, x))
  {
    var r := Request(s, e, x);
    forall y | y in r.interceptors ensures r.interceptorsTold && Present(s, y) {
      if y in s.interceptors { assert s.interceptorsTold && Present(s, y); }
    }
    TablesKeepInv(s, r);
  }

  lemma MonitorsKeepInv(s: Server, e: Event, x: Session)
    requires Inv(s) && Present(s, x) && (e.AddMonitor? || e.RemoveMonitor?)
    ensures Inv(Request(s, e, x))
  {
    var r := Request(s, e, x);
    forall y | y in r.monitors ensures r.monitorsTold && Present(s, y) {
      if y in s.monitors { assert s.monitorsTold && Present(s, y); }
    }
    TablesKeepInv(s, r);
  }

  lemma SubscribeKeepsInv(s: Server, pid: int, id: int, x: Session)
    requires Inv(s) && Present(s, x)
    ensures Inv(Request(s, Subscribe(pid, id), x))
  {
    var r := Request(s, Subscribe(pid, id), x);
    forall y | y in r.subscribers ensures r.subscribersTold && Present(s, y.0) {
      if y in s.subscribers { assert s.subscribersTold && Present(s, y.0); }
    }
    TablesKeepInv(s, r);
  }

  lemma RequestKeepsInv(s: Server, e: Event, x: Session)
    requires Inv(s) && Present(s, x)
    ensures Inv(Request(s, e, x))
  {
    if e.Unsubscribe? {
      UnsubscribeKeepsInv(s, e.pid, e.id, x);
    } else if e.Subscribe? {
      SubscribeKeepsInv(s, e.pid, e.id, x);
    } else if e.AddMonitor? || e.RemoveMonitor? {
      MonitorsKeepInv(s, e, x);
    } else if e.AddInterceptor? || e.RemoveInterceptor? {
      InterceptorsKeepInv(s, e, x);
    }
  }

  lemma StepKeepsInv(s: Server, e: Event)
    requires Inv(s) && Possible(s, e)
    ensures Inv(Step(s, e))
  {
    if e.Connect? {
      ConnectKeepsInv(s, e.fd, e.pid);
    } else if e.Disconnect? {
      DisconnectKeepsInv(s, e.fd);
    } else if GetSessionByPid(s, e.pid).Some? {
      RequestKeepsInv(s, e, GetSessionByPid(s, e.pid).value);
    }
  }

  ghost predicate PossibleRun(s: Server, es: seq<Event>)
    decreases |es|
  {
    es == [] || (Possible(s, es[0]) && PossibleRun(Step(s, es[0]), es[1..]))
  }

  function Run(s: Server, es: seq<Event>): Server
    decreases |es|
  {
    if es == [] then s else Run(Step(s, es[0]), es[1..])
  }

  lemma {:induction false} RunKeepsInv(s: Server, es: seq<Event>)
    requires Inv(s) && PossibleRun(s, es)
    ensures Inv(Run(s, es))
    decreases |es|
  {
    if es != [] { StepKeepsInv(s, es[0]); RunKeepsInv(Step(s, es[0]), es[1..]); }
  }

  /** In every run with fresh descriptors, up to the stop of the server: an indexed pid leads
      to a present session of that pid, and every interceptor, monitor and subscriber refers to
      a session in the table. */
  lemma ReferencesArePresent(es: seq<Event>, pid: int)
    requires PossibleRun(START, es)
    ensures var s := Run(START, es);
            && (GetSessionByPid(s, pid).Some? ==> GetSessionByPid(s, pid).value.pid == pid)
            && (pid in s.idxPidMap ==> GetSession(s, GetClientFd(s, pid)).Some?
                                       && GetSession(s, GetClientFd(s, pid)).value.pid == pid)
            && (forall x | x in s.interceptors || x in s.monitors :: GetSession(s, x.fd) == Some(x))
            && (forall y | y in s.subscribers :: GetSession(s, y.0.fd) == Some(y.0))
  {
    RunKeepsInv(START, es);
  }

  // ---------- which sessions are found, told from the events of the run ----------

  lemma {:induction false} RunSnoc(s: Server, es: seq<Event>)
    requires es != [] && PossibleRun(s, es)
    ensures var before, last := es[..|es| - 1], es[|es| - 1];
            && PossibleRun(s, before) && Possible(Run(s, before), last)
            && Run(s, es) == Step(Run(s, before), last)
    decreases |es|
  {
    var before := es[..|es| - 1];
    if before != [] {
      RunSnoc(Step(s, es[0]), es[1..]);
      assert es[1..][..|es| - 2] == before[1..] && before[0] == es[0];
    } else {
      assert es[1..] == [];
    }
  }

  /** Event `k` opened descriptor `fd` for process `pid`, and nothing has closed it since. */
  ghost predicate OpenSince(es: seq<Event>, k: nat, fd: int, pid: int) {
    && k < |es| && es[k] == Connect(fd, pid) && fd >= 0 && pid > 0
    && forall j | k < j < |es| :: es[j] != Disconnect(fd)
  }

  ghost predicate Open(es: seq<Event>, fd: int, pid: int) { exists k: nat :: OpenSince(es, k, fd, pid) }

  /** The session of descriptor `fd` belongs to `pid`. */
  predicate Holds(s: Server, fd: int, pid: int) { GetSession(s, fd).Some? && GetSession(s, fd).value.pid == pid }

  /** A step opens, closes or leaves alone. */
  lemma StepHolds(s: Server, e: Event, fd: int, pid: int)
    requires Inv(s) && Possible(s, e)
    ensures Holds(Step(s, e), fd, pid) <==>
              (e == Connect(fd, pid) && fd >= 0 && pid > 0) || (Holds(s, fd, pid) && e != Disconnect(fd))
  {
    if !e.Connect? && !e.Disconnect? { RequestsLeaveSessions(s, e); }
  }

  lemma RequestsLeaveSessions(s: Server, e: Event)
    requires !e.Connect? && !e.Disconnect?
    ensures Step(s, e).sessionsMap == s.sessionsMap && Step(s, e).idxPidMap == s.idxPidMap
  {
    var found := GetSessionByPid(s, e.pid);
    if found.Some? { RequestLeavesSessions(s, e, found.value); }
  }

  lemma {:induction false} RequestLeavesSessions(s: Server, e: Event, x: Session)
    ensures Request(s, e, x).sessionsMap == s.sessionsMap && Request(s, e, x).idxPidMap == s.idxPidMap
  {
    match e {
      case AddInterceptor(_, eventType) =>
      case RemoveInterceptor(_, eventType) =>
      case AddMonitor(_, eventType) =>
      case RemoveMonitor(_, eventType) =>
      case Subscribe(_, id) =>
      case Unsubscribe(_, id) =>
      case _ =>
    }
  }

  lemma OpenStep(es: seq<Event>, fd: int, pid: int)
    requires es != []
    ensures var before, last := es[..|es| - 1], es[|es| - 1];
            Open(es, fd, pid) <==>
              (last == Connect(fd, pid) && fd >= 0 && pid > 0) || (Open(before, fd, pid) && last != Disconnect(fd))
  {
    var before, last := es[..|es| - 1], es[|es| - 1];
    if Open(es, fd, pid) {
      var k: nat :| OpenSince(es, k, fd, pid);
      if k < |before| { assert OpenSince(before, k, fd, pid); }
    }
    if Open(before, fd, pid) && last != Disconnect(fd) {
      var k: nat :| OpenSince(before, k, fd, pid);
      assert OpenSince(es, k, fd, pid);
    }
    if last == Connect(fd, pid) && fd >= 0 && pid > 0 { assert OpenSince(es, |es| - 1, fd, pid); }
  }

  /** The table holds a session of `pid` under `fd` exactly if the run opened it and has not
      closed it since. */
  lemma {:induction false} PresentExactlyWhen(es: seq<Event>, fd: int, pid: int)
    requires PossibleRun(START, es)
    ensures Holds(Run(START, es), fd, pid) <==> Open(es, fd, pid)
    decreases |es|
  {
    if es != [] {
      RunSnoc(START, es);
      var before := es[..|es| - 1];
      RunKeepsInv(START, before);
      PresentExactlyWhen(before, fd, pid);
      StepHolds(Run(START, before), es[|es| - 1], fd, pid);
      OpenStep(es, fd, pid);
    }
  }

  /** The event closes a session that the run before it opened for `pid`. */
  ghost predicate Closes(before: seq<Event>, e: Event, pid: int) { e.Disconnect? && Open(before, e.fd, pid) }

  predicate Opens(e: Event, pid: int) { e.Connect? && e.pid == pid && e.fd >= 0 && pid > 0 }

  /** Event `k` opened `fd` for `pid`, and since then `pid` has opened no other descriptor and
      closed none, this or any other. */
  ghost predicate LatestSince(es: seq<Event>, k: nat, fd: int, pid: int) {
    && k < |es| && es[k] == Connect(fd, pid) && fd >= 0 && pid > 0
    && forall j | k < j < |es| :: !Opens(es[j], pid) && !Closes(es[..j], es[j], pid)
  }

  ghost predicate Latest(es: seq<Event>, fd: int, pid: int) { exists k: nat :: LatestSince(es, k, fd, pid) }

  predicate Indexed(s: Server, fd: int, pid: int) { pid in s.idxPidMap && s.idxPidMap[pid] == fd }

  lemma LatestStep(es: seq<Event>, fd: int, pid: int)
    requires es != []
    ensures var before, last := es[..|es| - 1], es[|es| - 1];
            Latest(es, fd, pid) <==>
              || (last == Connect(fd, pid) && fd >= 0 && pid > 0)
              || (Latest(before, fd, pid) && !Opens(last, pid) && !Closes(before, last, pid))
  {
    var before, last := es[..|es| - 1], es[|es| - 1];
    assert forall j | 0 <= j < |es| :: before[..j] == es[..j];
    if Latest(es, fd, pid) {
      var k: nat :| LatestSince(es, k, fd, pid);
      if k < |before| {
        assert forall j | k < j < |before| :: before[j] == es[j];
        assert LatestSince(before, k, fd, pid);
      }
    }
    if Latest(before, fd, pid) && !Opens(last, pid) && !Closes(before, last, pid) {
      var k: nat :| LatestSince(before, k, fd, pid);
      assert forall j | k < j < |before| :: before[j] == es[j];
      assert LatestSince(es, k, fd, pid);
    }
    if last == Connect(fd, pid) && fd >= 0 && pid > 0 { assert LatestSince(es, |es| - 1, fd, pid); }
  }

  lemma IndexStep(s: Server, e: Event, fd: int, pid: int)
    requires Inv(s) && Possible(s, e)
    ensures Indexed(Step(s, e), fd, pid) <==>
              || (e == Connect(fd, pid) && fd >= 0 && pid > 0)
              || (Indexed(s, fd, pid) && !Opens(e, pid) && !(e.Disconnect? && Holds(s, e.fd, pid)))
  {
    if e.Disconnect? && e.fd in s.sessionsMap { assert s.sessionsMap[e.fd].pid > 0; }
    if !e.Connect? && !e.Disconnect? { RequestsLeaveSessions(s, e); }
  }

  /** The index leads from a pid to the descriptor it opened last, unless it has closed one since. */
  lemma {:induction false} IndexExactlyWhen(es: seq<Event>, fd: int, pid: int)
    requires PossibleRun(START, es)
    ensures Indexed(Run(START, es), fd, pid) <==> Latest(es, fd, pid)
    decreases |es|
  {
    if es != [] {
      RunSnoc(START, es);
      var before, last := es[..|es| - 1], es[|es| - 1];
      RunKeepsInv(START, before);
      IndexExactlyWhen(before, fd, pid);
      if last.Disconnect? { PresentExactlyWhen(before, last.fd, pid); }
      IndexStep(Run(START, before), last, fd, pid);
      LatestStep(es, fd, pid);
    }
  }

  /** A process is found by its pid exactly when some connection of it, on a descriptor above 0,
      was followed neither by another connection of that process nor by the closing of any of its
      sessions. */
  lemma FoundByPidExactlyWhen(es: seq<Event>, pid: int)
    requires PossibleRun(START, es)
    ensures GetSessionByPid(Run(START, es), pid).Some? <==> exists fd :: fd > 0 && Latest(es, fd, pid)
  {
    var s := Run(START, es);
    RunKeepsInv(START, es);
    if pid in s.idxPidMap { IndexExactlyWhen(es, s.idxPidMap[pid], pid); }
    if fd :| fd > 0 && Latest(es, fd, pid) { IndexExactlyWhen(es, fd, pid); }
  }

  /** Of the sessions in the table the one found for its process is the one on the descriptor that
      the process opened last, if that is above 0 and the process has closed none since. */
  lemma SessionFoundExactlyWhen(es: seq<Event>, x: Session)
    requires PossibleRun(START, es) && GetSession(Run(START, es), x.fd) == Some(x)
    ensures GetSessionByPid(Run(START, es), x.pid) == Some(x) <==> x.fd > 0 && Latest(es, x.fd, x.pid)
  {
    RunKeepsInv(START, es);
    IndexExactlyWhen(es, x.fd, x.pid);
  }

  /** A session present whose pid the index no longer knows. */
  lemma SecondSessionIsLost()
    ensures var es := [Connect(5, 7), Connect(6, 7), Disconnect(5)];
            && PossibleRun(START, es)
            && GetSession(Run(START, es), 6) == Some(Session(1, 6, 7))
            && GetSessionByPid(Run(START, es), 7).None?
  {
    var es := [Connect(5, 7), Connect(6, 7), Disconnect(5)];
    var s1 := Step(START, es[0]);
    var s2 := Step(s1, es[1]);
    var s3 := Step(s2, es[2]);
    assert es[1..] == [Connect(6, 7), Disconnect(5)] && es[1..][1..] == [Disconnect(5)] && es[1..][1..][1..] == [];
    assert Run(s3, []) == s3;
    assert Run(s2, [Disconnect(5)]) == s3;
    assert Run(s1, es[1..]) == s3;
    assert PossibleRun(s2, [Disconnect(5)]);
    assert PossibleRun(s1, es[1..]);
  }

  lemma HasSession(a: set<Session>)
    ensures a == {} || exists x :: x in a
  {
    if forall x :: x !in a { assert a == {}; }
  }

  /** The server and the handler tables with their maps changed in place. */
  class UDSServer {
    var sessionsMap: map<int, Session>
    var idxPidMap: map<int, int>
    var tokens: nat
    var interceptors: map<Session, int>
    var monitors: map<Session, int>
    var subscribers: seq<(Session, int)>
    var interceptorsTold: bool
    var monitorsTold: bool
    var subscribersTold: bool

    function View(): Server
      reads this
    {
      Server(sessionsMap, idxPidMap, tokens, interceptors, monitors, subscribers, interceptorsTold, monitorsTold, subscribersTold)
    }

    constructor ()
      ensures View() == START && Inv(View())
    {
      sessionsMap, idxPidMap, tokens := map[], map[], 0;
      interceptors, monitors, subscribers := map[], map[], [];
      interceptorsTold, monitorsTold, subscribersTold := false, false, false;
    }

    method Connect(fd: int, pid: int) returns (ok: bool)
      requires Inv(View()) && fd !in sessionsMap
      modifies this
      ensures View() == AddSession(old(View()), fd, pid) && Inv(View())
      ensures ok <==> fd >= 0 && pid > 0
      ensures ok && fd > 0 ==> GetSessionByPid(View(), pid) == GetSession(View(), fd)
    {
      ConnectKeepsInv(View(), fd, pid);
      if fd < 0 {
        return false;
      }
      if pid <= 0 {
        return false;
      }
      idxPidMap := idxPidMap[pid := fd];
      sessionsMap := sessionsMap[fd := Session(tokens, fd, pid)];
      tokens := tokens + 1;
      return true;
    }

    /** InterceptorCollection::OnSessionLost, walking its set and erasing as it goes. */
    method OnInterceptorSessionLost(x: Session)
      modifies this`interceptors
      ensures interceptors == old(interceptors) - {x}
    {
      var todo := interceptors.Keys;
      while todo != {}
        invariant interceptors == if x in todo || x !in old(interceptors) then old(interceptors) else old(interceptors) - {x}
        invariant todo <= old(interceptors).Keys
        decreases |todo|
      {
        HasSession(todo);
        var y: Session :| y in todo;
        if y == x {
          interceptors := interceptors - {y};
        }
        todo := todo - {y};
      }
    }

    /** KeySubscriberHandler::OnSessionDelete on the list of subscriptions. */
    method OnSubscriberSessionLost(x: Session)
      modifies this`subscribers
      ensures subscribers == WithoutSession(old(subscribers), x)
    {
      var kept: seq<(Session, int)> := [];
      for i := 0 to |subscribers|
        invariant subscribers == old(subscribers)
        invariant kept + WithoutSession(subscribers[i..], x) == WithoutSession(old(subscribers), x)
      {
        assert subscribers[i..][1..] == subscribers[i + 1..];
        if subscribers[i].0 != x {
          assert kept + WithoutSession(subscribers[i..], x) == (kept + [subscribers[i]]) + WithoutSession(subscribers[i + 1..], x);
          kept := kept + [subscribers[i]];
        }
      }
      assert subscribers[|subscribers|..] == [] && kept + [] == kept;
      subscribers := kept;
    }

    method Disconnect(fd: int)
      requires Inv(View())
      modifies this
      ensures View() == DelSession(old(View()), fd) && Inv(View())
    {
      DisconnectKeepsInv(View(), fd);
      if fd < 0 || fd !in sessionsMap {
        return;
      }
      var ses := sessionsMap[fd];
      if ses.pid > 0 {
        idxPidMap := idxPidMap - {ses.pid};
      }
      if interceptorsTold {
        OnInterceptorSessionLost(ses);
      }
      if monitorsTold {
        monitors := monitors - {ses};
      }
      if subscribersTold {
        OnSubscriberSessionLost(ses);
      }
      sessionsMap := sessionsMap - {fd};
    }
  }
}
