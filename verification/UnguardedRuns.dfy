/** The runs that break the promise of the two-device protocol, hence its exact condition. */
module UnguardedRuns {
  import opened Cooperation
  import opened TwoDevices
  import opened UnguardedLegs

  /** If starts may begin on a FREE device over a waiting success, FreeStartsRun ends with
      nothing under way and both devices IN. */
  lemma BothInByFreeStarts(g: Guards)
    requires !g.freeStarts
    ensures var net := TwoDevices.Run(START, FreeStartsRun(), g);
            Quiet(net) && net.a.state == In && net.b.state == In
  {
    RunConcat(START, LEG1 + LEG2 + LEG3 + LEG4 + LEG5, LEG6, g);
    RunConcat(START, LEG1 + LEG2 + LEG3 + LEG4, LEG5, g);
    RunConcat(START, LEG1 + LEG2 + LEG3, LEG4, g);
    RunConcat(START, LEG1 + LEG2, LEG3, g);
    RunConcat(START, LEG1, LEG2, g);
    Leg1(g);
    Leg2(g);
    Leg3(g);
    Leg4(g);
    Leg5(g);
    Leg6(g);
  }

  /** If starts may begin on an IN device over a waiting success, InStartsRun ends with nothing
      under way and both devices IN. */
  lemma BothInByComingBack(g: Guards)
    requires !g.inStarts
    ensures var net := TwoDevices.Run(START, InStartsRun(), g);
            Quiet(net) && net.a.state == In && net.b.state == In
  {
    RunConcat(START, LEG7 + LEG8 + LEG9 + LEG10 + LEG11 + LEG12 + LEG13, LEG14, g);
    RunConcat(START, LEG7 + LEG8 + LEG9 + LEG10 + LEG11 + LEG12, LEG13, g);
    RunConcat(START, LEG7 + LEG8 + LEG9 + LEG10 + LEG11, LEG12, g);
    RunConcat(START, LEG7 + LEG8 + LEG9 + LEG10, LEG11, g);
    RunConcat(START, LEG7 + LEG8 + LEG9, LEG10, g);
    RunConcat(START, LEG7 + LEG8, LEG9, g);
    RunConcat(START, LEG7, LEG8, g);
    Leg7(g);
    Leg8(g);
    Leg9(g);
    Leg10(g);
    Leg11(g);
    Leg12(g);
    Leg13(g);
    Leg14(g);
  }

  /** If stops may begin on an IN device over a waiting success, InStopsRun ends with nothing
      under way and both devices OUT. */
  lemma BothOutByStopping(g: Guards)
    requires !g.inStops
    ensures var net := TwoDevices.Run(START, InStopsRun(), g);
            Quiet(net) && net.a.state == Out && net.b.state == Out
  {
    RunConcat(START, LEG7 + LEG8 + LEG9 + LEG10 + LEG15 + LEG16 + LEG17, LEG18, g);
    RunConcat(START, LEG7 + LEG8 + LEG9 + LEG10 + LEG15 + LEG16, LEG17, g);
    RunConcat(START, LEG7 + LEG8 + LEG9 + LEG10 + LEG15, LEG16, g);
    RunConcat(START, LEG7 + LEG8 + LEG9 + LEG10, LEG15, g);
    RunConcat(START, LEG7 + LEG8 + LEG9, LEG10, g);
    RunConcat(START, LEG7 + LEG8, LEG9, g);
    RunConcat(START, LEG7, LEG8, g);
    Leg7(g);
    Leg8(g);
    Leg9(g);
    Leg10(g);
    Leg15(g);
    Leg16(g);
    Leg17(g);
    Leg18(g);
  }

  /** If the pair of prepared devices may be cleared during a start on a FREE device,
      FreeCalmRun ends with nothing under way and both devices OUT. */
  lemma BothOutByClosing(g: Guards)
    requires !g.freeCalm
    ensures var net := TwoDevices.Run(START, FreeCalmRun(), g);
            Quiet(net) && net.a.state == Out && net.b.state == Out
  {
    RunConcat(START, LEG19 + LEG20 + LEG21 + LEG22 + LEG23, LEG24, g);
    RunConcat(START, LEG19 + LEG20 + LEG21 + LEG22, LEG23, g);
    RunConcat(START, LEG19 + LEG20 + LEG21, LEG22, g);
    RunConcat(START, LEG19 + LEG20, LEG21, g);
    RunConcat(START, LEG19, LEG20, g);
    Leg19(g);
    Leg20(g);
    Leg21(g);
    Leg22(g);
    Leg23(g);
    Leg24(g);
  }

  /** If the pair of prepared devices may be cleared during a relay, RelayCalmRun ends with
      nothing under way and both devices OUT. */
  lemma BothOutByRelay(g: Guards)
    requires !g.relayCalm
    ensures var net := TwoDevices.Run(START, RelayCalmRun(), g);
            Quiet(net) && net.a.state == Out && net.b.state == Out
  {
    RunConcat(START, LEG7 + LEG8 + LEG9 + LEG25 + LEG26 + LEG27 + LEG28 + LEG29 + LEG30 + LEG31, LEG32, g);
    RunConcat(START, LEG7 + LEG8 + LEG9 + LEG25 + LEG26 + LEG27 + LEG28 + LEG29 + LEG30, LEG31, g);
    RunConcat(START, LEG7 + LEG8 + LEG9 + LEG25 + LEG26 + LEG27 + LEG28 + LEG29, LEG30, g);
    RunConcat(START, LEG7 + LEG8 + LEG9 + LEG25 + LEG26 + LEG27 + LEG28, LEG29, g);
    RunConcat(START, LEG7 + LEG8 + LEG9 + LEG25 + LEG26 + LEG27, LEG28, g);
    RunConcat(START, LEG7 + LEG8 + LEG9 + LEG25 + LEG26, LEG27, g);
    RunConcat(START, LEG7 + LEG8 + LEG9 + LEG25, LEG26, g);
    RunConcat(START, LEG7 + LEG8 + LEG9, LEG25, g);
    RunConcat(START, LEG7 + LEG8, LEG9, g);
    RunConcat(START, LEG7, LEG8, g);
    Leg7(g);
    Leg8(g);
    Leg9(g);
    Leg25(g);
    Leg26(g);
    Leg27(g);
    Leg28(g);
    Leg29(g);
    Leg30(g);
    Leg31(g);
    Leg32(g);
  }

  /** If a stop on an IN device may be for a start device of a third device, PeerOriginRun ends
      with nothing under way and both devices OUT. */
  lemma BothOutByThirdDevice(g: Guards)
    requires !g.peerOrigin
    ensures var net := TwoDevices.Run(START, PeerOriginRun(), g);
            Quiet(net) && net.a.state == Out && net.b.state == Out
  {
    RunConcat(START, LEG7 + LEG8 + LEG9 + LEG25 + LEG33 + LEG34 + LEG35 + LEG36 + LEG29 + LEG30 + LEG31, LEG32, g);
    RunConcat(START, LEG7 + LEG8 + LEG9 + LEG25 + LEG33 + LEG34 + LEG35 + LEG36 + LEG29 + LEG30, LEG31, g);
    RunConcat(START, LEG7 + LEG8 + LEG9 + LEG25 + LEG33 + LEG34 + LEG35 + LEG36 + LEG29, LEG30, g);
    RunConcat(START, LEG7 + LEG8 + LEG9 + LEG25 + LEG33 + LEG34 + LEG35 + LEG36, LEG29, g);
    RunConcat(START, LEG7 + LEG8 + LEG9 + LEG25 + LEG33 + LEG34 + LEG35, LEG36, g);
    RunConcat(START, LEG7 + LEG8 + LEG9 + LEG25 + LEG33 + LEG34, LEG35, g);
    RunConcat(START, LEG7 + LEG8 + LEG9 + LEG25 + LEG33, LEG34, g);
    RunConcat(START, LEG7 + LEG8 + LEG9 + LEG25, LEG33, g);
    RunConcat(START, LEG7 + LEG8 + LEG9, LEG25, g);
    RunConcat(START, LEG7 + LEG8, LEG9, g);
    RunConcat(START, LEG7, LEG8, g);
    Leg7(g);
    Leg8(g);
    Leg9(g);
    Leg25(g);
    Leg33(g);
    Leg34(g);
    Leg35(g);
    Leg36(g);
    Leg29(g);
    Leg30(g);
    Leg31(g);
    Leg32(g);
  }

  /** Exactly when the protocol keeps its promise in every run: no start, and no stop on an IN
      device, begins while a successful start result of the peer is undelivered; no session loss or
      close clears the pair of prepared devices between its being set and read, be it for a start
      on a FREE device or a relay; and a stop on an IN device is for a start device of the peer.
      A stop on an OUT device needs no such care, and early failures may be reported to anyone. */
  lemma SafeIffGuarded(g: Guards)
    ensures SafeRuns(g) <==>
              g.freeStarts && g.inStarts && g.inStops && g.freeCalm && g.relayCalm && g.peerOrigin
  {
    if Sufficient(g) {
      forall es ensures var net := TwoDevices.Run(START, es, g); Clear(net.toA) && Clear(net.toB) ==> Settled(net) {
        NeverBothInNorOut(es, g);
      }
    } else {
      Breaks(g);
    }
  }

  lemma Breaks(g: Guards)
    requires !Sufficient(g)
    ensures !SafeRuns(g)
  {
    if !g.freeStarts {
      BothInByFreeStarts(g);
    } else if !g.inStarts {
      BothInByComingBack(g);
    } else if !g.inStops {
      BothOutByStopping(g);
    } else if !g.freeCalm {
      BothOutByClosing(g);
    } else if !g.relayCalm {
      BothOutByRelay(g);
    } else {
      BothOutByThirdDevice(g);
    }
  }
}
