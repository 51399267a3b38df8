/** Two devices running the cooperation protocol over channels, with resets at any time. */
module TwoDevices {
  import opened Cooperation

  datatype Side = A | B

  function Other(n: Side): Side { if n == A then B else A }

  function Id(n: Side): string { if n == A then "A" else "B" }

  /** The ways of an operation: a start on a FREE device; on an IN device a come-back, if the start
      device belongs to the peer, or a relay; and a stop on an IN or an OUT device. */
  datatype Route = FreeStart | ComeBack | Relay | InStop | OutStop

  /** The one operation in flight: begun, to be reported to `remote`; with the pair of prepared
      devices remembered; with distributed input called, `to` being the device to be told; and
      with its finish task posted. */
  datatype Op =
    | Idle
    | Begun(node: Side, route: Route, remote: string)
    | Preparing(node: Side, route: Route)
    | Called(node: Side, route: Route, to: string)
    | Posted(node: Side, isStart: bool, ok: bool, to: string)

  /** `toA` and `toB` hold the undelivered messages, oldest first. */
  datatype Net = Net(a: SM, b: SM, toA: seq<Message>, toB: seq<Message>, op: Op)

  const START := Net(INITIAL, INITIAL, [], [], Idle)

  function Node(net: Net, n: Side): SM { if n == A then net.a else net.b }

  function Inbox(net: Net, n: Side): seq<Message> { if n == A then net.toA else net.toB }

  /** The messages of `ls` addressed to `id`. */
  function Addressed(ls: seq<Letter>, id: string): seq<Message> {
    if ls == [] then []
    else if ls[0].to == id then [ls[0].msg] + Addressed(ls[1..], id)
    else Addressed(ls[1..], id)
  }

  /** Device `n` moves to `s`, sending `ls`; letters to anyone but the peer go elsewhere. */
  function Act(net: Net, n: Side, s: SM, ls: seq<Letter>, op: Op): Net {
    var sent := Addressed(ls, Id(Other(n)));
    if n == A then net.(a := s, toB := net.toB + sent, op := op)
    else net.(b := s, toA := net.toA + sent, op := op)
  }

  datatype Event =
    | BeginStart(n: Side, relay: bool, sendOk: bool)
    | BeginStop(n: Side, origin: string, sendOk: bool)
    | PointerMove(n: Side, isRemote: bool, dhid: string, origin: string, sendOk: bool)
    | Prepare(sink: string)
    | Call
    | FailEarly(remote: string, over: bool)
    | Callback(ok: bool)
    | RunPosted(dhid: string, sink: string)
    | Deliver(n: Side)
    | LocalDisturb(n: Side, cause: Cause)

  /** A start that succeeded: the one message that takes a device out of FREE. */
  predicate Success(m: Message) { m.StartResult? && m.ok }

  predicate Clear(c: seq<Message>) { forall i | 0 <= i < |c| :: !Success(c[i]) }

  /** What is kept apart.  The first four say which operations hold back while a successful start
      result of the peer is undelivered; the next two, during which starts no session loss or
      close clears the pair of prepared devices between its being set and its being read; the last,
      that a stop on an IN device is for a start device of the peer. */
  datatype Guards = Guards(
    freeStarts: bool, inStarts: bool, inStops: bool, outStops: bool,
    freeCalm: bool, relayCalm: bool, peerOrigin: bool)

  predicate Guarded(g: Guards, route: Route) {
    match route
    case FreeStart => g.freeStarts
    case ComeBack => g.inStarts
    case Relay => g.inStarts
    case InStop => g.inStops
    case OutStop => g.outStops
  }

  /** `remote` is the device the operation is to be reported to. */
  predicate MayBegin(net: Net, n: Side, route: Route, remote: string, g: Guards) {
    && net.op.Idle? && (Guarded(g, route) ==> Clear(Inbox(net, n)))
    && (route.InStop? && g.peerOrigin ==> remote == Id(Other(n)))
  }

  function StartRoute(s: SM, relay: bool): Route {
    if !s.current.InObject? then FreeStart else if relay then Relay else ComeBack
  }

  function StopRoute(s: SM): Route { if s.current.InObject? then InStop else OutStop }

  /** Whom a stop is reported to: the owner of the start device, or the device started with. */
  function StopRemote(s: SM, origin: string): string {
    if s.current.InObject? then origin else if s.srcNetworkId != "" then s.srcNetworkId else s.prepared.0
  }

  predicate IsStart(route: Route) { route.FreeStart? || route.ComeBack? || route.Relay? }

  predicate Prepares(route: Route) { route.FreeStart? || route.Relay? }

  /** The disturbance would clear the pair of prepared devices that the start of `n` is to read. */
  predicate Untimely(net: Net, n: Side, cause: Cause, g: Guards) {
    && net.op.Preparing? && net.op.node == n
    && (if net.op.route.FreeStart? then g.freeCalm else g.relayCalm)
    && Disturb(Node(net, n), cause).prepared != Node(net, n).prepared
  }

  function Step(net: Net, e: Event, g: Guards): Net {
    match e
    case BeginStart(n, relay, sendOk) =>
      var (s, ls, ok) := LocalStart(Node(net, n), Id(n), Id(Other(n)), sendOk);
      var route := StartRoute(Node(net, n), relay);
      if !MayBegin(net, n, route, Id(Other(n)), g) || !ok then net
      else Act(net, n, s, ls, Begun(n, route, Id(Other(n))))
    case BeginStop(n, origin, sendOk) => Stopping(net, n, origin, LocalStop(Node(net, n), origin, sendOk), g)
    case PointerMove(n, isRemote, dhid, origin, sendOk) =>
      Stopping(net, n, origin, PointerMoved(Node(net, n), isRemote, dhid, origin, sendOk), g)
    case Prepare(sink) =>
      if !net.op.Begun? || !Prepares(net.op.route) then net else
      var n := net.op.node;
      Act(net, n, Prepared(Node(net, n), net.op.remote, sink), [], Preparing(n, net.op.route))
    case Call =>
      if net.op.Begun? && !Prepares(net.op.route) then net.(op := Called(net.op.node, net.op.route, net.op.remote))
      else if net.op.Preparing? then net.(op := Called(net.op.node, net.op.route, Node(net, net.op.node).prepared.0))
      else net
    case FailEarly(remote, over) =>
      // A failing step of the operation reports the finish itself, once or more often,
      // possibly to a device that is not the peer.
      if net.op.Idle? || net.op.Posted? then net else
      var n := net.op.node;
      var (s, ls) := if IsStart(net.op.route) then StartFinish(Node(net, n), false, remote, "", "")
                     else StopFinish(Node(net, n), false, remote);
      Act(net, n, s, ls, if over then Idle else net.op)
    case Callback(ok) => if !net.op.Called? then net else net.(op := AfterCallback(Node(net, net.op.node), net.op, ok))
    case RunPosted(dhid, sink) =>
      if !net.op.Posted? then net else
      var n := net.op.node;
      var (s, ls) := if net.op.isStart then StartFinish(Node(net, n), net.op.ok, net.op.to, dhid, sink)
                     else StopFinish(Node(net, n), net.op.ok, net.op.to);
      Act(net, n, s, ls, Idle)
    case Deliver(n) =>
      if Inbox(net, n) == [] then net
      else if n == A then net.(a := Receive(net.a, net.toA[0]), toA := net.toA[1..])
      else net.(b := Receive(net.b, net.toB[0]), toB := net.toB[1..])
    case LocalDisturb(n, cause) =>
      if Untimely(net, n, cause, g) then net
      else if n == A then net.(a := Disturb(net.a, cause)) else net.(b := Disturb(net.b, cause))
  }

  /** A stop, begun if it may be and goes ahead. */
  function Stopping(net: Net, n: Side, origin: string, stop: (SM, seq<Letter>, bool), g: Guards): Net {
    var route, remote := StopRoute(Node(net, n)), StopRemote(Node(net, n), origin);
    if !MayBegin(net, n, route, remote, g) || !stop.2 then net
    else Act(net, n, stop.0, stop.1, Begun(n, route, remote))
  }

  /** What the distributed-input callback posts.  A relay that succeeds goes on to stop the remote
      input; at the end of that, as of a come-back and of a stop, the IN state object decides by
      the flags it finds.  A relay that fails posts the failure of a start whatever they are. */
  function AfterCallback(s: SM, op: Op, ok: bool): Op
    requires op.Called?
  {
    match op.route
    case FreeStart => Posted(op.node, true, ok, op.to)
    case OutStop => Posted(op.node, false, ok, op.to)
    case Relay => if ok then Called(op.node, ComeBack, op.to) else Posted(op.node, true, false, op.to)
    case _ =>
      if s.isStarting then Posted(op.node, true, ok, op.to)
      else if s.isStopping then Posted(op.node, false, ok, op.to)
      else Idle
  }

  function Run(net: Net, es: seq<Event>, g: Guards): Net
    decreases |es|
  {
    if es == [] then net else Run(Step(net, es[0], g), es[1..], g)
  }

  predicate Quiet(net: Net) { net.toA == [] && net.toB == [] }

  /** What the protocol promises. */
  predicate Settled(net: Net) {
    !(net.a.state == Out && net.b.state == Out) && !(net.a.state == In && net.b.state == In)
  }

  /** The promise is kept whenever no successful start result is under way, whatever else is. */
  ghost predicate SafeRuns(g: Guards) {
    forall es :: var net := Run(START, es, g); Clear(net.toA) && Clear(net.toB) ==> Settled(net)
  }

  // ---------- the part of a device the argument needs ----------

  datatype Phase = Phase(state: State, starting: bool)

  const AT_REST := Phase(Free, false)

  function P(s: SM): Phase { Phase(s.state, s.isStarting) }

  /** What a message does to the phase, unless it resets the device. */
  function Take(p: Phase, m: Message): Phase {
    match m
    case StartMsg => p.(starting := true)
    case StartResult(ok, _) =>
      if !p.starting then p
      else if !ok || p.state == In then p.(starting := false)
      else if p.state == Free then Phase(In, false)
      else AT_REST
    case _ => p
  }

  lemma ReceivePhase(s: SM, m: Message)
    ensures P(Receive(s, m)) == Take(P(s), m) || (P(Receive(s, m)) == AT_REST == Take(AT_REST, m))
  {
  }

  lemma DisturbPhase(s: SM, c: Cause)
    ensures P(Disturb(s, c)) == P(s) || P(Disturb(s, c)) == AT_REST
  {
  }

  /** Every phase `p` can be in once the messages `c` are consumed, resets coming at any time. */
  ghost function Drains(p: Phase, c: seq<Message>): set<Phase>
    decreases |c|
  {
    if c == [] then {p, AT_REST} else Drains(Take(p, c[0]), c[1..]) + Drains(Take(AT_REST, c[0]), c[1..])
  }

  lemma {:induction false} DrainsReset(p: Phase, c: seq<Message>)
    ensures Drains(AT_REST, c) <= Drains(p, c)
  {
  }

  lemma {:induction false} DrainsMore(p: Phase, c: seq<Message>, m: Message, y: Phase)
    requires y in Drains(p, c + [m])
    ensures y == AT_REST || exists x :: x in Drains(p, c) && y == Take(x, m)
    decreases |c|
  {
    if c == [] {
      assert (c + [m])[0] == m && (c + [m])[1..] == [];
      if y != AT_REST { assert p in Drains(p, c) && AT_REST in Drains(p, c); }
    } else {
      assert (c + [m])[0] == c[0] && (c + [m])[1..] == c[1..] + [m];
      if y in Drains(Take(p, c[0]), c[1..] + [m]) {
        DrainsMore(Take(p, c[0]), c[1..], m, y);
      } else {
        DrainsMore(Take(AT_REST, c[0]), c[1..], m, y);
      }
    }
  }

  // ---------- the invariant of guarded runs ----------

  predicate Clash(p: Phase, q: Phase) { p.state == q.state && p.state != Free }

  /** Every phase `q` can be in as soon as no success is left among the messages to come. */
  ghost function Reach(q: Phase, c: seq<Message>): set<Phase>
    decreases |c|
  {
    if Clear(c) then {q, AT_REST} else Reach(Take(q, c[0]), c[1..]) + Reach(Take(AT_REST, c[0]), c[1..])
  }

  /** A start request comes after the last success. */
  predicate LateStart(c: seq<Message>) { exists i :: 0 <= i < |c| && c[i].StartMsg? && Clear(c[i + 1..]) }

  /** Without a success nothing leaves FREE. */
  lemma TakeClear(p: Phase, m: Message)
    ensures Take(p, m).state == Out ==> p.state == Out
    ensures !Success(m) ==> Take(p, m).state == p.state || Take(p, m) == AT_REST
  {
  }

  lemma ClearTail(c: seq<Message>)
    requires c != []
    ensures Clear(c) <==> !Success(c[0]) && Clear(c[1..])
  {
    if !Success(c[0]) && Clear(c[1..]) {
      forall i | 0 <= i < |c| ensures !Success(c[i]) { if i > 0 { assert c[i] == c[1..][i - 1]; } }
    }
  }

  lemma ClearMore(c: seq<Message>, m: Message)
    ensures Clear(c + [m]) <==> Clear(c) && !Success(m)
  {
    if Clear(c + [m]) {
      assert (c + [m])[|c|] == m;
      assert forall i | 0 <= i < |c| :: (c + [m])[i] == c[i];
    }
  }

  lemma {:induction false} ReachReset(q: Phase, c: seq<Message>)
    ensures Reach(AT_REST, c) <= Reach(q, c)
  {
  }

  /** Delivering the next message takes no new phase within reach but those of its own kind. */
  lemma ReachNext(q: Phase, c: seq<Message>, y: Phase)
    requires c != [] && y in Reach(Take(q, c[0]), c[1..])
    ensures exists z :: z in Reach(q, c) && (y.state == z.state || y.state == Free)
  {
    ClearTail(c);
    TakeClear(q, c[0]);
    if Clear(c) {
      assert q in Reach(q, c);
    } else {
      assert y in Reach(q, c);
    }
  }

  lemma {:induction false} ReachMore(q: Phase, c: seq<Message>, m: Message)
    requires !Success(m)
    ensures Reach(q, c + [m]) == Reach(q, c)
    decreases |c|
  {
    ClearMore(c, m);
    if !Clear(c) {
      assert (c + [m])[0] == c[0] && (c + [m])[1..] == c[1..] + [m];
      ReachMore(Take(q, c[0]), c[1..], m);
      ReachMore(Take(AT_REST, c[0]), c[1..], m);
    }
  }

  /** With a success at the end nothing is within reach before all is drained. */
  lemma {:induction false} ReachSuccess(q: Phase, c: seq<Message>, m: Message)
    requires Success(m)
    ensures Reach(q, c + [m]) <= Drains(q, c + [m])
    decreases |c|
  {
    ClearMore(c, m);
    var d := c + [m];
    if c == [] {
      assert d[0] == m && d[1..] == [];
    } else {
      assert d[0] == c[0] && d[1..] == c[1..] + [m];
      ReachSuccess(Take(q, c[0]), c[1..], m);
      ReachSuccess(Take(AT_REST, c[0]), c[1..], m);
    }
  }

  /** What drains to IN or OUT was within reach there. */
  lemma {:induction false} DrainsReached(q: Phase, c: seq<Message>, y: Phase)
    requires y in Drains(q, c) && y.state != Free
    ensures exists z :: z in Reach(q, c) && z.state == y.state
    decreases |c|
  {
    if c == [] {
      assert q in Reach(q, c);
    } else {
      ClearTail(c);
      var p := if y in Drains(Take(q, c[0]), c[1..]) then q else AT_REST;
      DrainsReached(Take(p, c[0]), c[1..], y);
      var z :| z in Reach(Take(p, c[0]), c[1..]) && z.state == y.state;
      ReachNext(p, c, z);
      ReachReset(q, c);
    }
  }

  /** Draining makes no device OUT. */
  lemma {:induction false} DrainsNotOut(q: Phase, c: seq<Message>, y: Phase)
    requires y in Drains(q, c) && q.state != Out
    ensures y.state != Out
    decreases |c|
  {
    if c != [] {
      TakeClear(q, c[0]);
      TakeClear(AT_REST, c[0]);
      if y in Drains(Take(q, c[0]), c[1..]) { DrainsNotOut(Take(q, c[0]), c[1..], y); }
      else { DrainsNotOut(Take(AT_REST, c[0]), c[1..], y); }
    }
  }

  lemma LateNext(c: seq<Message>)
    requires c != [] && LateStart(c[1..])
    ensures LateStart(c)
  {
    var i :| 0 <= i < |c[1..]| && c[1..][i].StartMsg? && Clear(c[1..][i + 1..]);
    assert c[i + 1].StartMsg? && c[i + 2..] == c[1..][i + 1..];
  }

  lemma LateMore(c: seq<Message>, m: Message)
    requires LateStart(c + [m])
    ensures m.StartMsg? || (!Success(m) && LateStart(c))
  {
    var d := c + [m];
    var i :| 0 <= i < |d| && d[i].StartMsg? && Clear(d[i + 1..]);
    if i < |c| {
      assert d[i + 1..] == c[i + 1..] + [m];
      ClearMore(c[i + 1..], m);
      assert c[i].StartMsg?;
    }
  }

  /** However the peer drains `c`, it is in no clash with `p` once no success is left; and if `p`
      is about to leave FREE, a peer that ends OUT has its starting flag up. */
  ghost predicate Safe(p: Phase, q: Phase, c: seq<Message>, busy: bool) {
    && (forall y | y in Reach(q, c) :: !Clash(p, y))
    && (busy && p.state == Free && p.starting ==> forall y | y in Drains(q, c) :: y.state == Out ==> y.starting)
  }

  /** A device with a late start request waiting has a peer that is not OUT. */
  predicate Late(p: Phase, own: seq<Message>, q: Phase, c: seq<Message>) {
    (LateStart(own) ==> q.state != Out) && (LateStart(c) ==> p.state != Out)
  }

  /** The operation in flight, if any, can only end as a stop. */
  predicate StopOnly(op: Op) {
    op.Idle? || ((op.Begun? || op.Called?) && op.route.OutStop?) || (op.Posted? && !op.isStart)
  }

  /** An operation of `n` is in flight. */
  predicate Busy(net: Net, n: Side) { !net.op.Idle? && net.op.node == n }

  /** `n` has no success to come and is the only device that may be on its way out of FREE. */
  ghost predicate InvFrom(net: Net, n: Side) {
    && Clear(Inbox(net, n))
    && (StopOnly(net.op) || net.op.node == n)
    && SameKind(net.a) && SameKind(net.b)
    && Safe(P(Node(net, n)), P(Node(net, Other(n))), Inbox(net, Other(n)), Busy(net, n))
    && Late(P(Node(net, n)), Inbox(net, n), P(Node(net, Other(n))), Inbox(net, Other(n)))
  }

  ghost predicate Inv(net: Net) { InvFrom(net, A) || InvFrom(net, B) }

  /** A message other than a success changes nothing within the peer's reach. */
  lemma SafeSend(p: Phase, p': Phase, q: Phase, c: seq<Message>, m: Message, busy: bool, busy': bool)
    requires Safe(p, q, c, busy) && !Success(m)
    requires p'.state == p.state || p'.state == Free
    requires busy' && p'.state == Free && p'.starting ==>
               m.StartMsg? || (busy && p.state == Free && p.starting && (m.StopMsg? || m.StopResult?))
    ensures Safe(p', q, c + [m], busy')
  {
    ReachMore(q, c, m);
    forall y | y in Drains(q, c + [m])
      ensures busy' && p'.state == Free && p'.starting ==> y.state == Out ==> y.starting
    {
      DrainsMore(q, c, m, y);
      if y != AT_REST { var x :| x in Drains(q, c) && y == Take(x, m); }
    }
  }

  /** A success is sent by a device on its way out of FREE, of IN, or already OUT. */
  lemma SafeSendSuccess(p: Phase, p': Phase, q: Phase, c: seq<Message>, dhid: string)
    requires Safe(p, q, c, true) && p.starting
    requires p'.state == (if p.state == In then Free else Out)
    ensures Safe(p', q, c + [StartResult(true, dhid)], false)
  {
    var m := StartResult(true, dhid);
    ReachSuccess(q, c, m);
    forall y | y in Reach(q, c + [m]) ensures !Clash(p', y) {
      DrainsMore(q, c, m, y);
      if y != AT_REST {
        var x :| x in Drains(q, c) && y == Take(x, m);
        if y.state == Out && p.state == Out { DrainsReached(q, c, x); }
      }
    }
  }

  /** A move of the device itself that sends nothing. */
  lemma SafeMove(p: Phase, p': Phase, q: Phase, c: seq<Message>, busy: bool, busy': bool)
    requires Safe(p, q, c, busy)
    requires p'.state == p.state || p'.state == Free
    requires busy' && p'.state == Free && p'.starting ==> (busy && p.state == Free && p.starting) || q.state != Out
    ensures Safe(p', q, c, busy')
  {
    forall y | y in Reach(q, c) ensures !Clash(p', y) { assert !Clash(p, y); }
    if q.state != Out { forall y | y in Drains(q, c) ensures y.state != Out { DrainsNotOut(q, c, y); } }
  }

  /** With nothing in flight and no success to come the two devices may swap roles. */
  lemma SwapRoles(net: Net, n: Side)
    requires InvFrom(net, n) && net.op.Idle? && Clear(Inbox(net, Other(n)))
    ensures InvFrom(net, Other(n))
  {
    var p, q := P(Node(net, n)), P(Node(net, Other(n)));
    assert q in Reach(q, Inbox(net, Other(n)));
    assert Reach(p, Inbox(net, n)) == {p, AT_REST};
  }

  lemma BeginOk(net: Net, n: Side)
    requires Inv(net) && net.op.Idle? && Clear(Inbox(net, n))
    ensures InvFrom(net, n)
  {
    if !InvFrom(net, n) { SwapRoles(net, Other(n)); }
  }

  // ---------- what the device in question does ----------

  lemma ActInv(net: Net, n: Side, s: SM, ls: seq<Letter>, op: Op)
    requires InvFrom(net, n) && SameKind(s) && (op.Idle? || op.node == n)
    requires Safe(P(s), P(Node(net, Other(n))), Inbox(net, Other(n)) + Addressed(ls, Id(Other(n))), !op.Idle?)
    requires LateStart(Inbox(net, Other(n)) + Addressed(ls, Id(Other(n)))) ==> s.state != Out
    ensures Inv(Act(net, n, s, ls, op))
  {
    assert InvFrom(Act(net, n, s, ls, op), n);
  }

  lemma AtMostOneLetter(ls: seq<Letter>, id: string)
    requires |ls| <= 1
    ensures Addressed(ls, id) == if ls != [] && ls[0].to == id then [ls[0].msg] else []
  {
    assert ls != [] ==> ls[1..] == [];
  }

  /** The device acts, sending at most one letter and no success. */
  lemma ActKeeps(net: Net, n: Side, s: SM, ls: seq<Letter>, op: Op)
    requires InvFrom(net, n) && SameKind(s) && (op.Idle? || op.node == n)
    requires ls == [] || (|ls| == 1 && !Success(ls[0].msg))
    requires P(s).state == P(Node(net, n)).state || P(s).state == Free
    requires ls != [] && ls[0].msg.StartMsg? ==> ls[0].to == Id(Other(n)) && s.state != Out
    requires !op.Idle? && s.state == Free && s.isStarting ==>
               || (ls != [] && ls[0].msg.StartMsg?)
               || (Busy(net, n) && P(Node(net, n)).state == Free && P(Node(net, n)).starting
                   && (ls == [] || ls[0].msg.StopMsg? || ls[0].msg.StopResult?))
    ensures Inv(Act(net, n, s, ls, op))
  {
    var q, c := P(Node(net, Other(n))), Inbox(net, Other(n));
    AtMostOneLetter(ls, Id(Other(n)));
    if ls != [] && ls[0].to == Id(Other(n)) {
      SafeSend(P(Node(net, n)), P(s), q, c, ls[0].msg, Busy(net, n), !op.Idle?);
      if LateStart(c + [ls[0].msg]) { LateMore(c, ls[0].msg); }
    } else {
      assert c + [] == c;
      SafeMove(P(Node(net, n)), P(s), q, c, Busy(net, n), !op.Idle?);
    }
    ActInv(net, n, s, ls, op);
  }

  lemma SuccessLetters(ls: seq<Letter>, id: string, m: Message, sink: string)
    requires ls == [Letter(id, m)] || (ls == [Letter(id, m)] + [Letter(sink, OtherResult(id))] && sink != id)
    ensures Addressed(ls, id) == [m]
  {
    assert |ls| == 2 ==> ls[1..] == [Letter(sink, OtherResult(id))] && ls[1..][1..] == [];
    assert |ls| == 1 ==> ls[1..] == [];
  }

  lemma SuccessKeeps(net: Net, n: Side, dhid: string, sink: string)
    requires InvFrom(net, n) && Busy(net, n) && Node(net, n).isStarting
    ensures var (s, ls) := StartFinish(Node(net, n), true, Id(Other(n)), dhid, sink);
            Inv(Act(net, n, s, ls, Idle))
  {
    var (s, ls) := StartFinish(Node(net, n), true, Id(Other(n)), dhid, sink);
    var q, c := P(Node(net, Other(n))), Inbox(net, Other(n));
    var m := StartResult(true, dhid);
    SuccessLetters(ls, Id(Other(n)), m, sink);
    SafeSendSuccess(P(Node(net, n)), P(s), q, c, dhid);
    if LateStart(c + [m]) { LateMore(c, m); }
    ActInv(net, n, s, ls, Idle);
  }

  // ---------- what its peer does: only stops ----------

  lemma {:induction false} ReachKept(q: Phase, q': Phase, c: seq<Message>)
    requires q' == q || q' == AT_REST
    ensures Reach(q', c) <= Reach(q, c) && Drains(q', c) <= Drains(q, c)
  {
    ReachReset(q, c);
    DrainsReset(q, c);
  }

  /** The peer acts, sending at most one stop message or stop result. */
  lemma PeerActs(net: Net, n: Side, s: SM, ls: seq<Letter>, op: Op)
    requires InvFrom(net, n) && !Busy(net, n) && SameKind(s) && StopOnly(op) && (op.Idle? || op.node == Other(n))
    requires P(s) == P(Node(net, Other(n))) || P(s) == AT_REST
    requires ls == [] || (|ls| == 1 && (ls[0].msg.StopMsg? || ls[0].msg.StopResult?))
    ensures Inv(Act(net, Other(n), s, ls, op))
  {
    var r := Act(net, Other(n), s, ls, op);
    var own := Inbox(net, n);
    AtMostOneLetter(ls, Id(Other(Other(n))));
    ReachKept(P(Node(net, Other(n))), P(s), Inbox(net, Other(n)));
    if ls != [] && ls[0].to == Id(n) {
      ClearMore(own, ls[0].msg);
      if LateStart(own + [ls[0].msg]) { LateMore(own, ls[0].msg); }
    } else {
      assert own + [] == own;
    }
    assert InvFrom(r, n);
  }

  // ---------- every step ----------

  lemma BeginStartKeeps(net: Net, n: Side, relay: bool, sendOk: bool, g: Guards)
    requires Inv(net) && net.op.Idle? && Clear(Inbox(net, n))
    ensures Inv(Step(net, BeginStart(n, relay, sendOk), g))
  {
    BeginOk(net, n);
    var (s, ls, ok) := LocalStart(Node(net, n), Id(n), Id(Other(n)), sendOk);
    if ok { ActKeeps(net, n, s, ls, Begun(n, StartRoute(Node(net, n), relay), Id(Other(n)))); }
  }

  /** A stop may begin on an OUT device whatever is to come. */
  lemma BeginStopKeeps(net: Net, n: Side, origin: string, sendOk: bool, remote: string)
    requires Inv(net) && net.op.Idle? && LocalStop(Node(net, n), origin, sendOk).2
    requires Node(net, n).current.OutObject? || Clear(Inbox(net, n))
    ensures var (s, ls, ok) := LocalStop(Node(net, n), origin, sendOk);
            Inv(Act(net, n, s, ls, Begun(n, StopRoute(Node(net, n)), remote)))
  {
    var (s, ls, ok) := LocalStop(Node(net, n), origin, sendOk);
    var op := Begun(n, StopRoute(Node(net, n)), remote);
    if Clear(Inbox(net, n)) {
      BeginOk(net, n);
      ActKeeps(net, n, s, ls, op);
    } else {
      assert InvFrom(net, Other(n));
      PeerActs(net, Other(n), s, ls, op);
    }
  }

  /** Delivery to the device whose turn it is not. */
  lemma DeliverToPeer(p: Phase, own: seq<Message>, q: Phase, c: seq<Message>, q': Phase, busy: bool)
    requires Safe(p, q, c, busy) && Late(p, own, q, c) && c != []
    requires q' == Take(q, c[0]) || q' == AT_REST == Take(AT_REST, c[0])
    ensures Safe(p, q', c[1..], busy) && Late(p, own, q', c[1..])
  {
    var x := if q' == Take(q, c[0]) then q else AT_REST;
    ReachKept(q, x, c);
    forall y | y in Reach(q', c[1..]) ensures !Clash(p, y) { ReachNext(x, c, y); }
    assert Drains(q', c[1..]) <= Drains(x, c);
    TakeClear(q, c[0]);
    if LateStart(c[1..]) { LateNext(c); }
  }

  /** Delivery to the device whose turn it is: no success is among its messages. */
  lemma DeliverToSelf(p: Phase, own: seq<Message>, q: Phase, c: seq<Message>, p': Phase, busy: bool)
    requires Safe(p, q, c, busy) && Late(p, own, q, c) && own != [] && Clear(own)
    requires p' == Take(p, own[0]) || p' == AT_REST
    ensures Safe(p', q, c, busy) && Late(p', own[1..], q, c) && Clear(own[1..])
  {
    ClearTail(own);
    TakeClear(p, own[0]);
    if own[0].StartMsg? { assert own[0 + 1..] == own[1..] && LateStart(own); }
    SafeMove(p, p', q, c, busy, busy);
    if LateStart(own[1..]) { LateNext(own); }
  }

  lemma DeliverKeeps(net: Net, k: Side, g: Guards)
    requires Inv(net)
    ensures Inv(Step(net, Deliver(k), g))
  {
    if Inbox(net, k) != [] {
      var n := if InvFrom(net, A) then A else B;
      var m := Inbox(net, k)[0];
      ReceivePhase(Node(net, k), m);
      var x := P(Receive(Node(net, k), m));
      var r := Step(net, Deliver(k), g);
      assert SameKind(Receive(Node(net, k), m));
      var p, own, q, c := P(Node(net, n)), Inbox(net, n), P(Node(net, Other(n))), Inbox(net, Other(n));
      if k == n { DeliverToSelf(p, own, q, c, x, Busy(net, n)); } else { DeliverToPeer(p, own, q, c, x, Busy(net, n)); }
      assert InvFrom(r, n);
    }
  }

  lemma DisturbKeeps(net: Net, k: Side, cause: Cause, g: Guards)
    requires Inv(net)
    ensures Inv(Step(net, LocalDisturb(k, cause), g))
  {
    var n := if InvFrom(net, A) then A else B;
    var r := Step(net, LocalDisturb(k, cause), g);
    var q, c := P(Node(net, Other(n))), Inbox(net, Other(n));
    DisturbPhase(Node(net, k), cause);
    assert SameKind(Disturb(Node(net, k), cause));
    if k == n {
      SafeMove(P(Node(net, n)), P(Node(r, n)), q, c, Busy(net, n), Busy(net, n));
    } else {
      ReachKept(q, P(Node(r, k)), c);
    }
    assert InvFrom(r, n);
  }

  /** A step of the operation that failed, reporting its finish early. */
  lemma FailKeeps(net: Net, remote: string, over: bool, g: Guards)
    requires Inv(net) && !net.op.Idle? && !net.op.Posted?
    ensures Inv(Step(net, FailEarly(remote, over), g))
  {
    var n := net.op.node;
    var (s, ls) := if IsStart(net.op.route) then StartFinish(Node(net, n), false, remote, "", "")
                   else StopFinish(Node(net, n), false, remote);
    var op := if over then Idle else net.op;
    if InvFrom(net, n) { ActKeeps(net, n, s, ls, op); } else { PeerActs(net, Other(n), s, ls, op); }
  }

  lemma PostedKeeps(net: Net, dhid: string, sink: string, g: Guards)
    requires Inv(net) && net.op.Posted? && TellsPeer(net)
    ensures Inv(Step(net, RunPosted(dhid, sink), g))
  {
    var n := net.op.node;
    if net.op.isStart && net.op.ok && Node(net, n).isStarting {
      SuccessKeeps(net, n, dhid, sink);
    } else {
      var (s, ls) := if net.op.isStart then StartFinish(Node(net, n), net.op.ok, net.op.to, dhid, sink)
                     else StopFinish(Node(net, n), net.op.ok, net.op.to);
      if InvFrom(net, n) { ActKeeps(net, n, s, ls, Idle); } else { PeerActs(net, Other(n), s, ls, Idle); }
    }
  }

  /** The steps of the operation that leave both phases and both inboxes as they are. */
  lemma OpMoves(net: Net, r: Net)
    requires Inv(net) && !net.op.Idle? && (StopOnly(net.op) ==> StopOnly(r.op)) && (r.op.Idle? || r.op.node == net.op.node)
    requires r.toA == net.toA && r.toB == net.toB && P(r.a) == P(net.a) && P(r.b) == P(net.b)
    requires SameKind(r.a) && SameKind(r.b)
    ensures Inv(r)
  {
    var n := if InvFrom(net, A) then A else B;
    SafeMove(P(Node(net, n)), P(Node(r, n)), P(Node(net, Other(n))), Inbox(net, Other(n)), Busy(net, n), Busy(r, n));
    assert InvFrom(r, n);
  }

  lemma PrepareKeeps(net: Net, sink: string, g: Guards)
    requires Inv(net) && net.op.Begun?
    ensures Inv(Step(net, Prepare(sink), g))
  {
    if Prepares(net.op.route) {
      assert Addressed([], Id(Other(net.op.node))) == [] && net.toA + [] == net.toA && net.toB + [] == net.toB;
      OpMoves(net, Step(net, Prepare(sink), g));
    }
  }

  lemma CallKeeps(net: Net, g: Guards)
    requires Inv(net) && (net.op.Begun? || net.op.Preparing?)
    ensures Inv(Step(net, Call, g))
  {
    OpMoves(net, Step(net, Call, g));
  }

  lemma CallbackKeeps(net: Net, ok: bool, g: Guards)
    requires Inv(net) && net.op.Called?
    ensures Inv(Step(net, Callback(ok), g))
  {
    OpMoves(net, Step(net, Callback(ok), g));
  }

  // ---------- whom an operation will tell ----------

  /** An operation that may end as a start will be reported to the peer. */
  predicate TellsPeer(net: Net) {
    match net.op
    case Idle => true
    case Begun(n, route, remote) => route.OutStop? || remote == Id(Other(n))
    case Preparing(n, route) => Prepares(route) && Node(net, n).prepared.0 == Id(Other(n))
    case Called(n, route, to) => route.OutStop? || to == Id(Other(n))
    case Posted(n, isStart, _, to) => isStart ==> to == Id(Other(n))
  }

  lemma DisturbTells(net: Net, n: Side, cause: Cause, g: Guards)
    requires TellsPeer(net) && g.freeCalm && g.relayCalm
    ensures TellsPeer(Step(net, LocalDisturb(n, cause), g))
  {
  }

  lemma ReceiveKeepsPrepared(s: SM, m: Message)
    ensures Receive(s, m).prepared == s.prepared
  {
  }

  lemma StepTells(net: Net, e: Event, g: Guards)
    requires TellsPeer(net) && Sufficient(g)
    ensures TellsPeer(Step(net, e, g))
  {
    match e
    case Deliver(n) => if Inbox(net, n) != [] { ReceiveKeepsPrepared(Node(net, n), Inbox(net, n)[0]); }
    case LocalDisturb(n, cause) => DisturbTells(net, n, cause, g);
    case _ =>
  }

  // ---------- every run ----------

  /** The guards that matter. */
  predicate Sufficient(g: Guards) {
    g.freeStarts && g.inStarts && g.inStops && g.freeCalm && g.relayCalm && g.peerOrigin
  }

  lemma StopKeeps(net: Net, n: Side, origin: string, sendOk: bool, stop: (SM, seq<Letter>, bool), g: Guards)
    requires Inv(net) && Sufficient(g) && (stop.2 ==> stop == LocalStop(Node(net, n), origin, sendOk))
    ensures Inv(Stopping(net, n, origin, stop, g))
  {
    var route, remote := StopRoute(Node(net, n)), StopRemote(Node(net, n), origin);
    if MayBegin(net, n, route, remote, g) && stop.2 { BeginStopKeeps(net, n, origin, sendOk, remote); }
  }

  lemma StepKeeps(net: Net, e: Event, g: Guards)
    requires Inv(net) && TellsPeer(net) && Sufficient(g)
    ensures Inv(Step(net, e, g))
  {
    match e
    case BeginStart(n, relay, sendOk) =>
      if MayBegin(net, n, StartRoute(Node(net, n), relay), Id(Other(n)), g) { BeginStartKeeps(net, n, relay, sendOk, g); }
    case BeginStop(n, origin, sendOk) => StopKeeps(net, n, origin, sendOk, LocalStop(Node(net, n), origin, sendOk), g);
    case PointerMove(n, isRemote, dhid, origin, sendOk) =>
      StopKeeps(net, n, origin, sendOk, PointerMoved(Node(net, n), isRemote, dhid, origin, sendOk), g);
    case Prepare(sink) => if net.op.Begun? { PrepareKeeps(net, sink, g); }
    case Call => if net.op.Begun? || net.op.Preparing? { CallKeeps(net, g); }
    case FailEarly(remote, over) => if !net.op.Idle? && !net.op.Posted? { FailKeeps(net, remote, over, g); }
    case Callback(ok) => if net.op.Called? { CallbackKeeps(net, ok, g); }
    case RunPosted(dhid, sink) => if net.op.Posted? { PostedKeeps(net, dhid, sink, g); }
    case Deliver(n) => DeliverKeeps(net, n, g);
    case LocalDisturb(n, cause) => DisturbKeeps(net, n, cause, g);
  }

  lemma {:induction false} RunKeeps(net: Net, es: seq<Event>, g: Guards)
    requires Inv(net) && TellsPeer(net) && Sufficient(g)
    ensures Inv(Run(net, es, g))
    decreases |es|
  {
    if es != [] { StepKeeps(net, es[0], g); StepTells(net, es[0], g); RunKeeps(Step(net, es[0], g), es[1..], g); }
  }

  /** If no start, and no stop on an IN device, begins while a successful start result of the peer
      is undelivered, if no session loss or close clears the pair of prepared devices between its
      being set and read, and if stops on an IN device are for a start device of the peer, then in
      every run, whatever completions, failures and resets it contains, two devices with no
      successful start result under way are never both OUT and never both IN. */
  lemma NeverBothInNorOut(es: seq<Event>, g: Guards)
    requires Sufficient(g)
    ensures var net := Run(START, es, g);
            Clear(net.toA) && Clear(net.toB) ==> Settled(net)
  {
    assert InvFrom(START, A) by { assert Reach(AT_REST, []) == {AT_REST}; }
    RunKeeps(START, es, g);
    var net := Run(START, es, g);
    if Clear(net.toA) && Clear(net.toB) {
      var n := if InvFrom(net, A) then A else B;
      assert P(Node(net, Other(n))) in Reach(P(Node(net, Other(n))), Inbox(net, Other(n)));
    }
  }

  lemma OneLetter(to: string, m: Message)
    ensures Addressed([Letter(to, m)], to) == [m]
  {
    assert [Letter(to, m)][1..] == [];
  }
}
