/** Cooperations started and ended undisturbed, and the ways back that restore both devices. */
module CooperationRoundTrips {
  import opened Cooperation
  import opened TwoDevices

  /** Both devices are free, with nothing started or stopping, and nothing under way. */
  predicate AtRest(net: Net) {
    Quiet(net) && net.op.Idle? && net.a == ResetAll(net.a) && net.b == ResetAll(net.b)
  }

  /** `n` is OUT and its peer IN with the same start device; `n` remembers its peer. */
  predicate Cooperating(net: Net, n: Side, dhid: string) {
    var out, into := Node(net, n), Node(net, Other(n));
    && Quiet(net) && net.op.Idle?
    && out == ResetAll(out).(state := Out, current := OutObject(dhid), startDhid := dhid, srcNetworkId := Id(Other(n)))
    && into == ResetAll(into).(state := In, current := InObject(dhid), startDhid := dhid)
  }

  /** The net with `s` for device `n` and `op` in flight. */
  function With(net: Net, n: Side, s: SM, op: Op): Net {
    if n == A then net.(a := s, op := op) else net.(b := s, op := op)
  }

  // ---------- the three parts of an operation that goes through ----------

  /** Begun, and announced to the peer. */
  function Announced(net: Net, begin: TwoDevices.Event, n: Side, g: Guards): Net {
    TwoDevices.Step(TwoDevices.Step(net, begin, g), Deliver(Other(n)), g)
  }

  /** Prepared with the start device of `device`, called, and called back until a finish is posted. */
  function Finished(net: Net, device: string, g: Guards): Net {
    var called := TwoDevices.Step(TwoDevices.Step(net, Prepare(device), g), Call, g);
    TwoDevices.Step(TwoDevices.Step(called, Callback(true), g), Callback(true), g)
  }

  /** The finish run, and its report delivered. */
  function Reported(net: Net, n: Side, dhid: string, sink: string, g: Guards): Net {
    TwoDevices.Step(TwoDevices.Step(net, RunPosted(dhid, sink), g), Deliver(Other(n)), g)
  }

  function Through(net: Net, begin: TwoDevices.Event, n: Side, device: string, dhid: string, sink: string, g: Guards): Net {
    Reported(Finished(Announced(net, begin, n, g), device, g), n, dhid, sink, g)
  }

  lemma Letters(n: Side, m: Message)
    ensures Addressed([Letter(Id(Other(n)), m)], Id(Other(n))) == [m] && [m][1..] == []
  {
    OneLetter(Id(Other(n)), m);
  }

  lemma StartAnnounced(net: Net, n: Side, relay: bool, g: Guards)
    requires Quiet(net) && net.op.Idle? && !Node(net, n).isStarting && !Node(net, n).current.OutObject?
    ensures var s := Node(net, n).(isStarting := true);
            Announced(net, BeginStart(n, relay, true), n, g) ==
            With(With(net, Other(n), Node(net, Other(n)).(isStarting := true), Idle), n,
                 if s.state == Free then s.(srcNetworkId := Id(Other(n))) else s,
                 Begun(n, StartRoute(Node(net, n), relay), Id(Other(n))))
  {
    Letters(n, StartMsg);
  }

  /** For the IN device `origin` is the peer, for the OUT device the peer is remembered. */
  lemma StopAnnounced(net: Net, n: Side, origin: string, g: Guards)
    requires Quiet(net) && net.op.Idle? && !Node(net, n).isStopping && SameKind(Node(net, n))
    requires match Node(net, n).state case Free => false case In => origin == Id(Other(n)) case Out => Node(net, n).srcNetworkId == Id(Other(n))
    ensures Announced(net, BeginStop(n, origin, true), n, g) ==
            With(With(net, Other(n), Node(net, Other(n)).(isStopping := true), Idle), n,
                 Node(net, n).(isStopping := true), Begun(n, StopRoute(Node(net, n)), Id(Other(n))))
  {
    Letters(n, StopMsg);
  }

  lemma FinishedMeans(net: Net, device: string, g: Guards)
    requires net.op.Begun? && net.op.remote == Id(Other(net.op.node))
    requires IsStart(net.op.route) ==> Node(net, net.op.node).isStarting
    requires net.op.route.InStop? ==> !Node(net, net.op.node).isStarting && Node(net, net.op.node).isStopping
    ensures var n, route := net.op.node, net.op.route;
            Finished(net, device, g) ==
            With(net, n, if Prepares(route) then Prepared(Node(net, n), Id(Other(n)), device) else Node(net, n),
                 Posted(n, IsStart(route), true, Id(Other(n))))
  {
    var n, route := net.op.node, net.op.route;
    var s := if Prepares(route) then Prepared(Node(net, n), Id(Other(n)), device) else Node(net, n);
    assert Addressed([], Id(Other(n))) == [] && net.toA + [] == net.toA && net.toB + [] == net.toB;
    var called := TwoDevices.Step(TwoDevices.Step(net, Prepare(device), g), Call, g);
    assert called == With(net, n, s, Called(n, route, Id(Other(n))));
  }

  // ---------- the start and the ways back ----------

  /** A start between devices at rest makes its device OUT and the peer IN, sharing the device
      that the start named. */
  lemma StartEstablishes(net: Net, n: Side, device: string, dhid: string, sink: string, g: Guards)
    requires AtRest(net)
    ensures var r := Through(net, BeginStart(n, false, true), n, device, dhid, sink, g);
            && Cooperating(r, n, dhid)
            && Node(r, n).prepared == (Id(Other(n)), device) && Node(r, Other(n)).prepared == Node(net, Other(n)).prepared
  {
    StartAnnounced(net, n, false, g);
    var begun := Announced(net, BeginStart(n, false, true), n, g);
    FinishedMeans(begun, device, g);
    Letters(n, StartResult(true, dhid));
  }

  /** Both devices are as in `net`, reset. */
  predicate Freed(r: Net, net: Net) { AtRest(r) && Forget(r) == Forget(With(With(net, A, ResetAll(net.a), Idle), B, ResetAll(net.b), Idle)) }

  /** The net without what it remembers of prepared devices. */
  function Forget(net: Net): Net {
    net.(a := net.a.(prepared := ("", "")), b := net.b.(prepared := ("", "")))
  }

  /** A posted stop of a device that is IN or OUT. */
  lemma StopReported(net: Net, n: Side, dhid: string, sink: string, g: Guards)
    requires Quiet(net) && net.op == Posted(n, false, true, Id(Other(n)))
    requires Node(net, n).isStopping && Node(net, n).state != Free && Node(net, Other(n)).isStopping
    ensures Freed(Reported(net, n, dhid, sink, g), net)
  {
    Letters(n, StopResult(true));
  }

  /** A stop by the OUT device, which reaches its peer because the start remembered it. */
  lemma StopByOut(net: Net, n: Side, cooperating: string, device: string, dhid: string, sink: string, g: Guards)
    requires Cooperating(net, n, cooperating)
    ensures Freed(Through(net, BeginStop(n, "", true), n, device, dhid, sink, g), net)
  {
    StopAnnounced(net, n, "", g);
    var begun := Announced(net, BeginStop(n, "", true), n, g);
    FinishedMeans(begun, device, g);
    StopReported(Finished(begun, device, g), n, dhid, sink, g);
  }

  /** A stop by the IN device, addressed to the owner of the start device. */
  lemma StopByIn(net: Net, n: Side, cooperating: string, device: string, dhid: string, sink: string, g: Guards)
    requires Cooperating(net, Other(n), cooperating)
    ensures Freed(Through(net, BeginStop(n, Id(Other(n)), true), n, device, dhid, sink, g), net)
  {
    StopAnnounced(net, n, Id(Other(n)), g);
    var begun := Announced(net, BeginStop(n, Id(Other(n)), true), n, g);
    FinishedMeans(begun, device, g);
    StopReported(Finished(begun, device, g), n, dhid, sink, g);
  }

  /** A local pointer moving on the IN device stops the cooperation as well. */
  lemma StopByPointer(net: Net, n: Side, cooperating: string, moved: string, device: string, dhid: string, sink: string, g: Guards)
    requires Cooperating(net, Other(n), cooperating)
    ensures Freed(Through(net, PointerMove(n, false, moved, Id(Other(n)), true), n, device, dhid, sink, g), net)
  {
    StopByIn(net, n, cooperating, device, dhid, sink, g);
    assert TwoDevices.Step(net, PointerMove(n, false, moved, Id(Other(n)), true), g) == TwoDevices.Step(net, BeginStop(n, Id(Other(n)), true), g);
  }

  /** Another pointer than the shared one moving on the OUT device stops the cooperation. */
  lemma StopByOtherPointer(net: Net, n: Side, cooperating: string, moved: string, isRemote: bool, origin: string,
                           device: string, dhid: string, sink: string, g: Guards)
    requires Cooperating(net, n, cooperating) && moved != cooperating
    ensures Freed(Through(net, PointerMove(n, isRemote, moved, origin, true), n, device, dhid, sink, g), net)
  {
    StopByOut(net, n, cooperating, device, dhid, sink, g);
    assert TwoDevices.Step(net, PointerMove(n, isRemote, moved, origin, true), g) == TwoDevices.Step(net, BeginStop(n, "", true), g);
  }

  /** The shared pointer moving on the OUT device, and the remote one on the IN device, are part of
      the cooperation and leave it alone. */
  lemma SharedPointerIsLeft(net: Net, n: Side, cooperating: string, isRemote: bool, moved: string, origin: string, sendOk: bool, g: Guards)
    requires Cooperating(net, n, cooperating)
    ensures TwoDevices.Step(net, PointerMove(n, isRemote, cooperating, origin, sendOk), g) == net
    ensures TwoDevices.Step(net, PointerMove(Other(n), true, moved, origin, sendOk), g) == net
  {
  }

  /** While the device is starting or stopping, or FREE, no pointer does anything. */
  lemma PointerInTransition(s: SM, isRemote: bool, moved: string, origin: string, sendOk: bool)
    requires s.isStarting || s.isStopping || s.state == Free
    ensures PointerMoved(s, isRemote, moved, origin, sendOk) == (s, [], false)
  {
  }

  /** A start on the IN device, be it a come-back or a relay, frees both devices again. */
  lemma StartByIn(net: Net, n: Side, cooperating: string, relay: bool, device: string, back: string, g: Guards)
    requires Cooperating(net, Other(n), cooperating)
    ensures Freed(Through(net, BeginStart(n, relay, true), n, device, back, Id(Other(n)), g), net)
  {
    StartAnnounced(net, n, relay, g);
    var begun := Announced(net, BeginStart(n, relay, true), n, g);
    FinishedMeans(begun, device, g);
    Letters(n, StartResult(true, back));
  }

  /** The ways to end a cooperation that `n` started. */
  datatype Ending = ByOut | ByIn | ByPointer(moved: string) | ByOtherPointer(moved: string) | ByStart(relay: bool)

  function Ended(net: Net, n: Side, ending: Ending, device: string, dhid: string, sink: string, g: Guards): Net {
    match ending
    case ByOut => Through(net, BeginStop(n, "", true), n, device, dhid, sink, g)
    case ByIn => Through(net, BeginStop(Other(n), Id(n), true), Other(n), device, dhid, sink, g)
    case ByPointer(moved) => Through(net, PointerMove(Other(n), false, moved, Id(n), true), Other(n), device, dhid, sink, g)
    case ByOtherPointer(moved) => Through(net, PointerMove(n, false, moved, "", true), n, device, dhid, sink, g)
    case ByStart(relay) => Through(net, BeginStart(Other(n), relay, true), Other(n), device, dhid, Id(n), g)
  }

  /** A cooperation started on either device and ended in any of these ways leaves both devices as
      they were, but for the pair of prepared devices that they remember. */
  lemma RoundTrip(net: Net, n: Side, device: string, dhid: string, sink: string, ending: Ending, device': string, dhid': string, g: Guards)
    requires AtRest(net) && (ending.ByOtherPointer? ==> ending.moved != dhid)
    ensures var started := Through(net, BeginStart(n, false, true), n, device, dhid, sink, g);
            var r := Ended(started, n, ending, device', dhid', sink, g);
            AtRest(r) && Forget(r) == Forget(net)
  {
    var started := Through(net, BeginStart(n, false, true), n, device, dhid, sink, g);
    StartEstablishes(net, n, device, dhid, sink, g);
    assert Other(Other(n)) == n;
    match ending
    case ByOut => StopByOut(started, n, dhid, device', dhid', sink, g);
    case ByIn => StopByIn(started, Other(n), dhid, device', dhid', sink, g);
    case ByPointer(moved) => StopByPointer(started, Other(n), dhid, moved, device', dhid', sink, g);
    case ByOtherPointer(moved) => StopByOtherPointer(started, n, dhid, moved, false, "", device', dhid', sink, g);
    case ByStart(relay) => StartByIn(started, Other(n), dhid, relay, device', dhid', g);
  }

  // ---------- a start that fails early ----------

  /** A start of `n` that the peer has heard of fails, reporting to `remote`. */
  function FailedStart(net: Net, n: Side, remote: string, g: Guards): Net {
    TwoDevices.Step(TwoDevices.Step(Announced(net, BeginStart(n, false, true), n, g), FailEarly(remote, true), g), Deliver(Other(n)), g)
  }

  /** The early failure runs the finish at once: the device is no longer starting, and the report
      is under way if the peer is its addressee. */
  lemma FailureReported(net: Net, n: Side, remote: string, g: Guards)
    requires Quiet(net) && net.op.Begun? && net.op.node == n && IsStart(net.op.route)
    requires Node(net, n).state == Free && Node(net, n).isStarting
    ensures var r := TwoDevices.Step(net, FailEarly(remote, true), g);
            && r.op.Idle? && Inbox(r, n) == [] && Node(r, Other(n)) == Node(net, Other(n))
            && Node(r, n).state == Free && !Node(r, n).isStarting
            && Inbox(r, Other(n)) == if remote == Id(Other(n)) then [StartResult(false, "")] else []
  {
    AtMostOneLetter([Letter(remote, StartResult(false, ""))], Id(Other(n)));
  }

  /** The peer's starting flag goes down again exactly if the failure was reported to the peer;
      otherwise it stays up, and the peer refuses every start. */
  lemma FailureMustReachThePeer(net: Net, n: Side, remote: string, g: Guards, other: string, sendOk: bool)
    requires AtRest(net)
    ensures var r := FailedStart(net, n, remote, g);
            var peer := Node(r, Other(n));
            && Quiet(r) && r.op.Idle? && Node(r, n).state == Free && !Node(r, n).isStarting
            && (!peer.isStarting <==> remote == Id(Other(n)))
            && (remote != Id(Other(n)) ==> !LocalStart(peer, Id(Other(n)), other, sendOk).2)
  {
    StartAnnounced(net, n, false, g);
    FailureReported(Announced(net, BeginStart(n, false, true), n, g), n, remote, g);
    assert [StartResult(false, "")][1..] == [];
  }
}
