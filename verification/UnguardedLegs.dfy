/** The runs that break the promise of the two-device protocol, followed leg by leg.  Each leg is
    a few events; its lemma says where it leads from where the leg before it ended.

    The devices are named "A" and "B", the start device "m".  Freed, Into and OutOf are a device
    that is FREE, and the two sides of a cooperation under way; their arguments are the starting
    and stopping flags, what is remembered of the start device and the peer, and the pair of
    prepared devices.  DONE is the report of a start that succeeded.

    Most runs begin alike: A starts, is reset and starts again, so that B, IN, has a start request
    of A still to come, with or without the success that followed it. */
module UnguardedLegs {
  import opened Cooperation
  import opened TwoDevices

  const DONE := StartResult(true, "m")

  function Freed(starting: bool, src: string, prepared: (string, string)): SM {
    SM(Free, FreeObject, starting, false, "", src, prepared)
  }

  function Into(starting: bool, stopping: bool, prepared: (string, string)): SM {
    SM(In, InObject("m"), starting, stopping, "m", "", prepared)
  }

  function OutOf(starting: bool, stopping: bool, dhid: string, src: string, prepared: (string, string)): SM {
    SM(Out, OutObject("m"), starting, stopping, dhid, src, prepared)
  }

  lemma {:induction false} RunConcat(net: Net, es: seq<TwoDevices.Event>, fs: seq<TwoDevices.Event>, g: Guards)
    ensures TwoDevices.Run(net, es + fs, g) == TwoDevices.Run(TwoDevices.Run(net, es, g), fs, g)
    decreases |es|
  {
    if es == [] {
      assert es + fs == fs;
    } else {
      assert (es + fs)[0] == es[0] && (es + fs)[1..] == es[1..] + fs;
      RunConcat(TwoDevices.Step(net, es[0], g), es[1..], fs, g);
    }
  }

  lemma RunOne(net: Net, e: TwoDevices.Event, g: Guards)
    ensures TwoDevices.Run(net, [e], g) == TwoDevices.Step(net, e, g)
  {
    assert [e][1..] == [];
  }

  lemma RunTwo(net: Net, e: TwoDevices.Event, f: TwoDevices.Event, g: Guards)
    ensures TwoDevices.Run(net, [e, f], g) == TwoDevices.Step(TwoDevices.Step(net, e, g), f, g)
  {
    assert [e, f][1..] == [f];
    RunOne(TwoDevices.Step(net, e, g), f, g);
  }

  lemma RunThree(net: Net, e: TwoDevices.Event, f: TwoDevices.Event, h: TwoDevices.Event, g: Guards)
    ensures TwoDevices.Run(net, [e, f, h], g) == TwoDevices.Step(TwoDevices.Step(TwoDevices.Step(net, e, g), f, g), h, g)
  {
    assert [e, f, h][1..] == [f, h];
    RunTwo(TwoDevices.Step(net, e, g), f, h, g);
  }

  // ---------- both IN, by starts on a FREE device ----------

  const LEG1: seq<TwoDevices.Event> :=
    [BeginStart(A, false, true), Prepare("A"), Call]

  lemma Leg1(g: Guards)
    ensures TwoDevices.Run(START, LEG1, g) ==
            Net(Freed(true, "B", ("B", "A")), INITIAL, [], [StartMsg], Called(A, FreeStart, "B"))
  {
    OneLetter("B", StartMsg);
    var n0 := START;
    RunThree(n0, LEG1[0], LEG1[1], LEG1[2], g);
  }

  const LEG2: seq<TwoDevices.Event> :=
    [Callback(true), RunPosted("m", ""), LocalDisturb(A, PointerGone("m"))]

  lemma Leg2(g: Guards)
    ensures var n0 := Net(Freed(true, "B", ("B", "A")), INITIAL, [], [StartMsg], Called(A, FreeStart, "B"));
            TwoDevices.Run(n0, LEG2, g) ==
            Net(Freed(false, "", ("B", "A")), INITIAL, [], [StartMsg, DONE], Idle)
  {
    OneLetter("B", DONE);
    var n0 := Net(Freed(true, "B", ("B", "A")), INITIAL, [], [StartMsg], Called(A, FreeStart, "B"));
    RunThree(n0, LEG2[0], LEG2[1], LEG2[2], g);
  }

  const LEG3: seq<TwoDevices.Event> :=
    [BeginStart(B, false, true), Deliver(A), Prepare("B")]

  lemma Leg3(g: Guards)
    requires !g.freeStarts
    ensures var n0 := Net(Freed(false, "", ("B", "A")), INITIAL, [], [StartMsg, DONE], Idle);
            TwoDevices.Run(n0, LEG3, g) ==
            Net(Freed(true, "", ("B", "A")), Freed(true, "A", ("A", "B")), [], [StartMsg, DONE], Preparing(B, FreeStart))
  {
    OneLetter("A", StartMsg);
    var n0 := Net(Freed(false, "", ("B", "A")), INITIAL, [], [StartMsg, DONE], Idle);
    RunThree(n0, LEG3[0], LEG3[1], LEG3[2], g);
  }

  const LEG4: seq<TwoDevices.Event> :=
    [Call, Callback(true), RunPosted("m", "")]

  lemma Leg4(g: Guards)
    ensures var n0 := Net(Freed(true, "", ("B", "A")), Freed(true, "A", ("A", "B")), [], [StartMsg, DONE], Preparing(B, FreeStart));
            TwoDevices.Run(n0, LEG4, g) ==
            Net(Freed(true, "", ("B", "A")), OutOf(false, false, "m", "A", ("A", "B")), [DONE], [StartMsg, DONE], Idle)
  {
    OneLetter("A", DONE);
    var n0 := Net(Freed(true, "", ("B", "A")), Freed(true, "A", ("A", "B")), [], [StartMsg, DONE], Preparing(B, FreeStart));
    RunThree(n0, LEG4[0], LEG4[1], LEG4[2], g);
  }

  const LEG5: seq<TwoDevices.Event> :=
    [Deliver(A), LocalDisturb(B, PointerGone("m"))]

  lemma Leg5(g: Guards)
    ensures var n0 := Net(Freed(true, "", ("B", "A")), OutOf(false, false, "m", "A", ("A", "B")), [DONE], [StartMsg, DONE], Idle);
            TwoDevices.Run(n0, LEG5, g) ==
            Net(Into(false, false, ("B", "A")), Freed(false, "", ("A", "B")), [], [StartMsg, DONE], Idle)
  {
    var n0 := Net(Freed(true, "", ("B", "A")), OutOf(false, false, "m", "A", ("A", "B")), [DONE], [StartMsg, DONE], Idle);
    RunTwo(n0, LEG5[0], LEG5[1], g);
  }

  const LEG6: seq<TwoDevices.Event> :=
    [Deliver(B), Deliver(B)]

  lemma Leg6(g: Guards)
    ensures var n0 := Net(Into(false, false, ("B", "A")), Freed(false, "", ("A", "B")), [], [StartMsg, DONE], Idle);
            TwoDevices.Run(n0, LEG6, g) ==
            Net(Into(false, false, ("B", "A")), Into(false, false, ("A", "B")), [], [], Idle)
  {
    var n0 := Net(Into(false, false, ("B", "A")), Freed(false, "", ("A", "B")), [], [StartMsg, DONE], Idle);
    RunTwo(n0, LEG6[0], LEG6[1], g);
  }

  /** Device B begins a start, FREE, while a success of A waits for it; A takes up its success, and B
      after a reset takes up that of A. */
  function FreeStartsRun(): seq<TwoDevices.Event> { LEG1 + LEG2 + LEG3 + LEG4 + LEG5 + LEG6 }

  // ---------- both IN, by a come-back ----------

  const LEG7: seq<TwoDevices.Event> :=
    [BeginStart(A, false, true), Deliver(B), Prepare("A")]

  lemma Leg7(g: Guards)
    ensures TwoDevices.Run(START, LEG7, g) ==
            Net(Freed(true, "B", ("B", "A")), Freed(true, "", ("", "")), [], [], Preparing(A, FreeStart))
  {
    OneLetter("B", StartMsg);
    var n0 := START;
    RunThree(n0, LEG7[0], LEG7[1], LEG7[2], g);
  }

  const LEG8: seq<TwoDevices.Event> :=
    [Call, Callback(true), RunPosted("m", "")]

  lemma Leg8(g: Guards)
    ensures var n0 := Net(Freed(true, "B", ("B", "A")), Freed(true, "", ("", "")), [], [], Preparing(A, FreeStart));
            TwoDevices.Run(n0, LEG8, g) ==
            Net(OutOf(false, false, "m", "B", ("B", "A")), Freed(true, "", ("", "")), [], [DONE], Idle)
  {
    OneLetter("B", DONE);
    var n0 := Net(Freed(true, "B", ("B", "A")), Freed(true, "", ("", "")), [], [], Preparing(A, FreeStart));
    RunThree(n0, LEG8[0], LEG8[1], LEG8[2], g);
  }

  const LEG9: seq<TwoDevices.Event> :=
    [LocalDisturb(A, PointerGone("m")), BeginStart(A, false, true), Deliver(B)]

  lemma Leg9(g: Guards)
    ensures var n0 := Net(OutOf(false, false, "m", "B", ("B", "A")), Freed(true, "", ("", "")), [], [DONE], Idle);
            TwoDevices.Run(n0, LEG9, g) ==
            Net(Freed(true, "B", ("B", "A")), Into(false, false, ("", "")), [], [StartMsg], Begun(A, FreeStart, "B"))
  {
    OneLetter("B", StartMsg);
    var n0 := Net(OutOf(false, false, "m", "B", ("B", "A")), Freed(true, "", ("", "")), [], [DONE], Idle);
    RunThree(n0, LEG9[0], LEG9[1], LEG9[2], g);
  }

  const LEG10: seq<TwoDevices.Event> :=
    [Prepare("A"), Call, Callback(true)]

  lemma Leg10(g: Guards)
    ensures var n0 := Net(Freed(true, "B", ("B", "A")), Into(false, false, ("", "")), [], [StartMsg], Begun(A, FreeStart, "B"));
            TwoDevices.Run(n0, LEG10, g) ==
            Net(Freed(true, "B", ("B", "A")), Into(false, false, ("", "")), [], [StartMsg], Posted(A, true, true, "B"))
  {
    var n0 := Net(Freed(true, "B", ("B", "A")), Into(false, false, ("", "")), [], [StartMsg], Begun(A, FreeStart, "B"));
    RunThree(n0, LEG10[0], LEG10[1], LEG10[2], g);
  }

  const LEG11: seq<TwoDevices.Event> :=
    [RunPosted("m", ""), LocalDisturb(A, PointerGone("m")), BeginStart(B, false, true)]

  lemma Leg11(g: Guards)
    requires !g.inStarts
    ensures var n0 := Net(Freed(true, "B", ("B", "A")), Into(false, false, ("", "")), [], [StartMsg], Posted(A, true, true, "B"));
            TwoDevices.Run(n0, LEG11, g) ==
            Net(Freed(false, "", ("B", "A")), Into(true, false, ("", "")), [StartMsg], [StartMsg, DONE], Begun(B, ComeBack, "A"))
  {
    OneLetter("B", DONE);
    OneLetter("A", StartMsg);
    var n0 := Net(Freed(true, "B", ("B", "A")), Into(false, false, ("", "")), [], [StartMsg], Posted(A, true, true, "B"));
    RunThree(n0, LEG11[0], LEG11[1], LEG11[2], g);
  }

  const LEG12: seq<TwoDevices.Event> :=
    [Deliver(A), Call, Callback(true)]

  lemma Leg12(g: Guards)
    ensures var n0 := Net(Freed(false, "", ("B", "A")), Into(true, false, ("", "")), [StartMsg], [StartMsg, DONE], Begun(B, ComeBack, "A"));
            TwoDevices.Run(n0, LEG12, g) ==
            Net(Freed(true, "", ("B", "A")), Into(true, false, ("", "")), [], [StartMsg, DONE], Posted(B, true, true, "A"))
  {
    var n0 := Net(Freed(false, "", ("B", "A")), Into(true, false, ("", "")), [StartMsg], [StartMsg, DONE], Begun(B, ComeBack, "A"));
    RunThree(n0, LEG12[0], LEG12[1], LEG12[2], g);
  }

  const LEG13: seq<TwoDevices.Event> :=
    [RunPosted("m", ""), Deliver(A)]

  lemma Leg13(g: Guards)
    ensures var n0 := Net(Freed(true, "", ("B", "A")), Into(true, false, ("", "")), [], [StartMsg, DONE], Posted(B, true, true, "A"));
            TwoDevices.Run(n0, LEG13, g) ==
            Net(Into(false, false, ("B", "A")), INITIAL, [], [StartMsg, DONE], Idle)
  {
    OneLetter("A", DONE);
    var n0 := Net(Freed(true, "", ("B", "A")), Into(true, false, ("", "")), [], [StartMsg, DONE], Posted(B, true, true, "A"));
    RunTwo(n0, LEG13[0], LEG13[1], g);
  }

  const LEG14: seq<TwoDevices.Event> :=
    [Deliver(B), Deliver(B)]

  lemma Leg14(g: Guards)
    ensures var n0 := Net(Into(false, false, ("B", "A")), INITIAL, [], [StartMsg, DONE], Idle);
            TwoDevices.Run(n0, LEG14, g) ==
            Net(Into(false, false, ("B", "A")), Into(false, false, ("", "")), [], [], Idle)
  {
    var n0 := Net(Into(false, false, ("B", "A")), INITIAL, [], [StartMsg, DONE], Idle);
    RunTwo(n0, LEG14[0], LEG14[1], g);
  }

  /** Device B, IN, begins a come-back while a start request and a success of A wait for it. */
  function InStartsRun(): seq<TwoDevices.Event> { LEG7 + LEG8 + LEG9 + LEG10 + LEG11 + LEG12 + LEG13 + LEG14 }

  // ---------- both OUT, by a stop on an IN device ----------

  const LEG15: seq<TwoDevices.Event> :=
    [RunPosted("m", ""), BeginStop(B, "A", true), Deliver(A)]

  lemma Leg15(g: Guards)
    requires !g.inStops
    ensures var n0 := Net(Freed(true, "B", ("B", "A")), Into(false, false, ("", "")), [], [StartMsg], Posted(A, true, true, "B"));
            TwoDevices.Run(n0, LEG15, g) ==
            Net(OutOf(false, true, "m", "B", ("B", "A")), Into(false, true, ("", "")), [], [StartMsg, DONE], Begun(B, InStop, "A"))
  {
    OneLetter("B", DONE);
    OneLetter("A", StopMsg);
    var n0 := Net(Freed(true, "B", ("B", "A")), Into(false, false, ("", "")), [], [StartMsg], Posted(A, true, true, "B"));
    RunThree(n0, LEG15[0], LEG15[1], LEG15[2], g);
  }

  const LEG16: seq<TwoDevices.Event> :=
    [LocalDisturb(B, PointerGone("m")), Deliver(B), Call]

  lemma Leg16(g: Guards)
    ensures var n0 := Net(OutOf(false, true, "m", "B", ("B", "A")), Into(false, true, ("", "")), [], [StartMsg, DONE], Begun(B, InStop, "A"));
            TwoDevices.Run(n0, LEG16, g) ==
            Net(OutOf(false, true, "m", "B", ("B", "A")), Freed(true, "", ("", "")), [], [DONE], Called(B, InStop, "A"))
  {
    var n0 := Net(OutOf(false, true, "m", "B", ("B", "A")), Into(false, true, ("", "")), [], [StartMsg, DONE], Begun(B, InStop, "A"));
    RunThree(n0, LEG16[0], LEG16[1], LEG16[2], g);
  }

  const LEG17: seq<TwoDevices.Event> :=
    [Callback(true), RunPosted("m", "")]

  lemma Leg17(g: Guards)
    ensures var n0 := Net(OutOf(false, true, "m", "B", ("B", "A")), Freed(true, "", ("", "")), [], [DONE], Called(B, InStop, "A"));
            TwoDevices.Run(n0, LEG17, g) ==
            Net(OutOf(false, true, "m", "B", ("B", "A")), OutOf(false, false, "m", "", ("", "")), [DONE], [DONE], Idle)
  {
    OneLetter("A", DONE);
    var n0 := Net(OutOf(false, true, "m", "B", ("B", "A")), Freed(true, "", ("", "")), [], [DONE], Called(B, InStop, "A"));
    RunTwo(n0, LEG17[0], LEG17[1], g);
  }

  const LEG18: seq<TwoDevices.Event> :=
    [Deliver(A), Deliver(B)]

  lemma Leg18(g: Guards)
    ensures var n0 := Net(OutOf(false, true, "m", "B", ("B", "A")), OutOf(false, false, "m", "", ("", "")), [DONE], [DONE], Idle);
            TwoDevices.Run(n0, LEG18, g) ==
            Net(OutOf(false, true, "m", "B", ("B", "A")), OutOf(false, false, "m", "", ("", "")), [], [], Idle)
  {
    var n0 := Net(OutOf(false, true, "m", "B", ("B", "A")), OutOf(false, false, "m", "", ("", "")), [DONE], [DONE], Idle);
    RunTwo(n0, LEG18[0], LEG18[1], g);
  }

  /** Device B, IN, begins a stop while a start request and a success of A wait for it; a reset and
      the start request turn its callback into that of a start. */
  function InStopsRun(): seq<TwoDevices.Event> { LEG7 + LEG8 + LEG9 + LEG10 + LEG15 + LEG16 + LEG17 + LEG18 }

  // ---------- both OUT, by a close during a start ----------

  const LEG19: seq<TwoDevices.Event> :=
    [BeginStart(B, false, true), Prepare("B"), Call]

  lemma Leg19(g: Guards)
    ensures TwoDevices.Run(START, LEG19, g) ==
            Net(INITIAL, Freed(true, "A", ("A", "B")), [StartMsg], [], Called(B, FreeStart, "A"))
  {
    OneLetter("A", StartMsg);
    var n0 := START;
    RunThree(n0, LEG19[0], LEG19[1], LEG19[2], g);
  }

  const LEG20: seq<TwoDevices.Event> :=
    [Callback(true), RunPosted("m", "")]

  lemma Leg20(g: Guards)
    ensures var n0 := Net(INITIAL, Freed(true, "A", ("A", "B")), [StartMsg], [], Called(B, FreeStart, "A"));
            TwoDevices.Run(n0, LEG20, g) ==
            Net(INITIAL, OutOf(false, false, "m", "A", ("A", "B")), [StartMsg, DONE], [], Idle)
  {
    OneLetter("A", DONE);
    var n0 := Net(INITIAL, Freed(true, "A", ("A", "B")), [StartMsg], [], Called(B, FreeStart, "A"));
    RunTwo(n0, LEG20[0], LEG20[1], g);
  }

  const LEG21: seq<TwoDevices.Event> :=
    [Deliver(A), Deliver(A), LocalDisturb(A, PointerGone("m"))]

  lemma Leg21(g: Guards)
    ensures var n0 := Net(INITIAL, OutOf(false, false, "m", "A", ("A", "B")), [StartMsg, DONE], [], Idle);
            TwoDevices.Run(n0, LEG21, g) ==
            Net(INITIAL, OutOf(false, false, "m", "A", ("A", "B")), [], [], Idle)
  {
    var n0 := Net(INITIAL, OutOf(false, false, "m", "A", ("A", "B")), [StartMsg, DONE], [], Idle);
    RunThree(n0, LEG21[0], LEG21[1], LEG21[2], g);
  }

  const LEG22: seq<TwoDevices.Event> :=
    [BeginStart(A, false, true)]

  lemma Leg22(g: Guards)
    ensures var n0 := Net(INITIAL, OutOf(false, false, "m", "A", ("A", "B")), [], [], Idle);
            TwoDevices.Run(n0, LEG22, g) ==
            Net(Freed(true, "B", ("", "")), OutOf(false, false, "m", "A", ("A", "B")), [], [StartMsg], Begun(A, FreeStart, "B"))
  {
    OneLetter("B", StartMsg);
    var n0 := Net(INITIAL, OutOf(false, false, "m", "A", ("A", "B")), [], [], Idle);
    RunOne(n0, LEG22[0], g);
  }

  const LEG23: seq<TwoDevices.Event> :=
    [Deliver(B), Prepare("A"), LocalDisturb(A, Closed("C", false, ""))]

  lemma Leg23(g: Guards)
    requires !g.freeCalm
    ensures var n0 := Net(Freed(true, "B", ("", "")), OutOf(false, false, "m", "A", ("A", "B")), [], [StartMsg], Begun(A, FreeStart, "B"));
            TwoDevices.Run(n0, LEG23, g) ==
            Net(Freed(true, "B", ("", "")), OutOf(true, false, "m", "A", ("A", "B")), [], [], Preparing(A, FreeStart))
  {
    var n0 := Net(Freed(true, "B", ("", "")), OutOf(false, false, "m", "A", ("A", "B")), [], [StartMsg], Begun(A, FreeStart, "B"));
    RunThree(n0, LEG23[0], LEG23[1], LEG23[2], g);
  }

  const LEG24: seq<TwoDevices.Event> :=
    [Call, Callback(true), RunPosted("m", "")]

  lemma Leg24(g: Guards)
    ensures var n0 := Net(Freed(true, "B", ("", "")), OutOf(true, false, "m", "A", ("A", "B")), [], [], Preparing(A, FreeStart));
            TwoDevices.Run(n0, LEG24, g) ==
            Net(OutOf(false, false, "m", "B", ("", "")), OutOf(true, false, "m", "A", ("A", "B")), [], [], Idle)
  {
    AtMostOneLetter([Letter("", DONE)], "B");
    var n0 := Net(Freed(true, "B", ("", "")), OutOf(true, false, "m", "A", ("A", "B")), [], [], Preparing(A, FreeStart));
    RunThree(n0, LEG24[0], LEG24[1], LEG24[2], g);
  }

  /** B is OUT and A, reset, starts.  A third device closes after A has remembered whom to tell: that
      clears the pair of prepared devices but not the starting flag, and B is never told. */
  function FreeCalmRun(): seq<TwoDevices.Event> { LEG19 + LEG20 + LEG21 + LEG22 + LEG23 + LEG24 }

  // ---------- both OUT, by a session loss during a relay ----------

  const LEG25: seq<TwoDevices.Event> :=
    [FailEarly("", true)]

  lemma Leg25(g: Guards)
    ensures var n0 := Net(Freed(true, "B", ("B", "A")), Into(false, false, ("", "")), [], [StartMsg], Begun(A, FreeStart, "B"));
            TwoDevices.Run(n0, LEG25, g) ==
            Net(Freed(false, "B", ("B", "A")), Into(false, false, ("", "")), [], [StartMsg], Idle)
  {
    AtMostOneLetter([Letter("", StartResult(false, ""))], "B");
    var n0 := Net(Freed(true, "B", ("B", "A")), Into(false, false, ("", "")), [], [StartMsg], Begun(A, FreeStart, "B"));
    RunOne(n0, LEG25[0], g);
  }

  const LEG26: seq<TwoDevices.Event> :=
    [BeginStart(B, true, true), Prepare("B"), LocalDisturb(B, SessionLost("A", "A"))]

  lemma Leg26(g: Guards)
    requires !g.relayCalm
    ensures var n0 := Net(Freed(false, "B", ("B", "A")), Into(false, false, ("", "")), [], [StartMsg], Idle);
            TwoDevices.Run(n0, LEG26, g) ==
            Net(Freed(false, "B", ("B", "A")), INITIAL, [StartMsg], [StartMsg], Preparing(B, Relay))
  {
    OneLetter("A", StartMsg);
    var n0 := Net(Freed(false, "B", ("B", "A")), Into(false, false, ("", "")), [], [StartMsg], Idle);
    RunThree(n0, LEG26[0], LEG26[1], LEG26[2], g);
  }

  const LEG27: seq<TwoDevices.Event> :=
    [Deliver(B), Call, Callback(true)]

  lemma Leg27(g: Guards)
    ensures var n0 := Net(Freed(false, "B", ("B", "A")), INITIAL, [StartMsg], [StartMsg], Preparing(B, Relay));
            TwoDevices.Run(n0, LEG27, g) ==
            Net(Freed(false, "B", ("B", "A")), Freed(true, "", ("", "")), [StartMsg], [], Called(B, ComeBack, ""))
  {
    var n0 := Net(Freed(false, "B", ("B", "A")), INITIAL, [StartMsg], [StartMsg], Preparing(B, Relay));
    RunThree(n0, LEG27[0], LEG27[1], LEG27[2], g);
  }

  const LEG28: seq<TwoDevices.Event> :=
    [Callback(true), RunPosted("m", "")]

  lemma Leg28(g: Guards)
    ensures var n0 := Net(Freed(false, "B", ("B", "A")), Freed(true, "", ("", "")), [StartMsg], [], Called(B, ComeBack, ""));
            TwoDevices.Run(n0, LEG28, g) ==
            Net(Freed(false, "B", ("B", "A")), OutOf(false, false, "m", "", ("", "")), [StartMsg], [], Idle)
  {
    AtMostOneLetter([Letter("", DONE)], "A");
    var n0 := Net(Freed(false, "B", ("B", "A")), Freed(true, "", ("", "")), [StartMsg], [], Called(B, ComeBack, ""));
    RunTwo(n0, LEG28[0], LEG28[1], g);
  }

  const LEG29: seq<TwoDevices.Event> :=
    [BeginStart(A, false, true), Deliver(B), FailEarly("B", false)]

  lemma Leg29(g: Guards)
    ensures var n0 := Net(Freed(false, "B", ("B", "A")), OutOf(false, false, "m", "", ("", "")), [StartMsg], [], Idle);
            TwoDevices.Run(n0, LEG29, g) ==
            Net(Freed(false, "B", ("B", "A")), OutOf(true, false, "m", "", ("", "")), [StartMsg], [StartResult(false, "")], Begun(A, FreeStart, "B"))
  {
    OneLetter("B", StartMsg);
    OneLetter("B", StartResult(false, ""));
    var n0 := Net(Freed(false, "B", ("B", "A")), OutOf(false, false, "m", "", ("", "")), [StartMsg], [], Idle);
    RunThree(n0, LEG29[0], LEG29[1], LEG29[2], g);
  }

  const LEG30: seq<TwoDevices.Event> :=
    [Deliver(A), Deliver(B), Prepare("A")]

  lemma Leg30(g: Guards)
    ensures var n0 := Net(Freed(false, "B", ("B", "A")), OutOf(true, false, "m", "", ("", "")), [StartMsg], [StartResult(false, "")], Begun(A, FreeStart, "B"));
            TwoDevices.Run(n0, LEG30, g) ==
            Net(Freed(true, "B", ("B", "A")), OutOf(false, false, "", "", ("", "")), [], [], Preparing(A, FreeStart))
  {
    var n0 := Net(Freed(false, "B", ("B", "A")), OutOf(true, false, "m", "", ("", "")), [StartMsg], [StartResult(false, "")], Begun(A, FreeStart, "B"));
    RunThree(n0, LEG30[0], LEG30[1], LEG30[2], g);
  }

  const LEG31: seq<TwoDevices.Event> :=
    [Call, Callback(true)]

  lemma Leg31(g: Guards)
    ensures var n0 := Net(Freed(true, "B", ("B", "A")), OutOf(false, false, "", "", ("", "")), [], [], Preparing(A, FreeStart));
            TwoDevices.Run(n0, LEG31, g) ==
            Net(Freed(true, "B", ("B", "A")), OutOf(false, false, "", "", ("", "")), [], [], Posted(A, true, true, "B"))
  {
    var n0 := Net(Freed(true, "B", ("B", "A")), OutOf(false, false, "", "", ("", "")), [], [], Preparing(A, FreeStart));
    RunTwo(n0, LEG31[0], LEG31[1], g);
  }

  const LEG32: seq<TwoDevices.Event> :=
    [RunPosted("m", ""), Deliver(B)]

  lemma Leg32(g: Guards)
    ensures var n0 := Net(Freed(true, "B", ("B", "A")), OutOf(false, false, "", "", ("", "")), [], [], Posted(A, true, true, "B"));
            TwoDevices.Run(n0, LEG32, g) ==
            Net(OutOf(false, false, "m", "B", ("B", "A")), OutOf(false, false, "", "", ("", "")), [], [], Idle)
  {
    OneLetter("B", DONE);
    var n0 := Net(Freed(true, "B", ("B", "A")), OutOf(false, false, "", "", ("", "")), [], [], Posted(A, true, true, "B"));
    RunTwo(n0, LEG32[0], LEG32[1], g);
  }

  /** B, IN with a start request of A waiting, begins a relay.  A session loss resets it and clears the
      pair of prepared devices, the start request raises the starting flag again, and B goes OUT
      untold.  A start of A, which reports one failure and goes on, then makes A OUT as well. */
  function RelayCalmRun(): seq<TwoDevices.Event> { LEG7 + LEG8 + LEG9 + LEG25 + LEG26 + LEG27 + LEG28 + LEG29 + LEG30 + LEG31 + LEG32 }

  // ---------- both OUT, by a stop for a third device ----------

  const LEG33: seq<TwoDevices.Event> :=
    [BeginStart(B, false, true)]

  lemma Leg33(g: Guards)
    ensures var n0 := Net(Freed(false, "B", ("B", "A")), Into(false, false, ("", "")), [], [StartMsg], Idle);
            TwoDevices.Run(n0, LEG33, g) ==
            Net(Freed(false, "B", ("B", "A")), Into(true, false, ("", "")), [StartMsg], [StartMsg], Begun(B, ComeBack, "A"))
  {
    OneLetter("A", StartMsg);
    var n0 := Net(Freed(false, "B", ("B", "A")), Into(false, false, ("", "")), [], [StartMsg], Idle);
    RunOne(n0, LEG33[0], g);
  }

  const LEG34: seq<TwoDevices.Event> :=
    [FailEarly("", true), BeginStop(B, "C", true), LocalDisturb(B, PointerGone("m"))]

  lemma Leg34(g: Guards)
    requires !g.peerOrigin
    ensures var n0 := Net(Freed(false, "B", ("B", "A")), Into(true, false, ("", "")), [StartMsg], [StartMsg], Begun(B, ComeBack, "A"));
            TwoDevices.Run(n0, LEG34, g) ==
            Net(Freed(false, "B", ("B", "A")), INITIAL, [StartMsg], [StartMsg], Begun(B, InStop, "C"))
  {
    AtMostOneLetter([Letter("", StartResult(false, ""))], "A");
    AtMostOneLetter([Letter("C", StopMsg)], "A");
    var n0 := Net(Freed(false, "B", ("B", "A")), Into(true, false, ("", "")), [StartMsg], [StartMsg], Begun(B, ComeBack, "A"));
    RunThree(n0, LEG34[0], LEG34[1], LEG34[2], g);
  }

  const LEG35: seq<TwoDevices.Event> :=
    [Deliver(B), Call]

  lemma Leg35(g: Guards)
    ensures var n0 := Net(Freed(false, "B", ("B", "A")), INITIAL, [StartMsg], [StartMsg], Begun(B, InStop, "C"));
            TwoDevices.Run(n0, LEG35, g) ==
            Net(Freed(false, "B", ("B", "A")), Freed(true, "", ("", "")), [StartMsg], [], Called(B, InStop, "C"))
  {
    var n0 := Net(Freed(false, "B", ("B", "A")), INITIAL, [StartMsg], [StartMsg], Begun(B, InStop, "C"));
    RunTwo(n0, LEG35[0], LEG35[1], g);
  }

  const LEG36: seq<TwoDevices.Event> :=
    [Callback(true), RunPosted("m", "")]

  lemma Leg36(g: Guards)
    ensures var n0 := Net(Freed(false, "B", ("B", "A")), Freed(true, "", ("", "")), [StartMsg], [], Called(B, InStop, "C"));
            TwoDevices.Run(n0, LEG36, g) ==
            Net(Freed(false, "B", ("B", "A")), OutOf(false, false, "m", "", ("", "")), [StartMsg], [], Idle)
  {
    AtMostOneLetter([Letter("C", DONE)], "A");
    var n0 := Net(Freed(false, "B", ("B", "A")), Freed(true, "", ("", "")), [StartMsg], [], Called(B, InStop, "C"));
    RunTwo(n0, LEG36[0], LEG36[1], g);
  }

  /** As before, but B goes OUT untold by a stop for a start device of a third device. */
  function PeerOriginRun(): seq<TwoDevices.Event> { LEG7 + LEG8 + LEG9 + LEG25 + LEG33 + LEG34 + LEG35 + LEG36 + LEG29 + LEG30 + LEG31 + LEG32 }
}
