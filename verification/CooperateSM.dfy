/** InputDeviceCooperateSM with its fields updated in place; every locked method is proved
    against its function in module Cooperation.  Letters handed to the soft bus are returned. */
module CooperateSMClass {
  import opened Cooperation

  class InputDeviceCooperateSM {
    var cooperateState: State
    var currentStateSM: StateObject
    var isStarting: bool
    var isStopping: bool
    var startDhid: string
    var srcNetworkId: string
    var preparedNetworkId: (string, string)

    function View(): SM
      reads this
    {
      SM(cooperateState, currentStateSM, isStarting, isStopping, startDhid, srcNetworkId, preparedNetworkId)
    }

    constructor ()
      ensures View() == INITIAL
    {
      cooperateState, currentStateSM := Free, FreeObject;
      isStarting, isStopping := false, false;
      startDhid, srcNetworkId := "", "";
      preparedNetworkId := ("", "");
    }

    /** FREE, with both flags down and nothing remembered of a start device or a peer. */
    predicate AtRest()
      reads this
    {
      cooperateState == Free && SameKind(View()) && !isStarting && !isStopping && startDhid == "" && srcNetworkId == ""
    }

    method Reset()
      modifies this
      ensures View() == ResetAll(old(View()))
    {
      startDhid := "";
      srcNetworkId := "";
      currentStateSM := FreeObject;
      cooperateState := Free;
      isStarting := false;
      isStopping := false;
    }

    method ChangeState(to: State)
      modifies this
      ensures View() == UpdateState(old(View()), to)
      ensures cooperateState == to && SameKind(View()) && preparedNetworkId == old(preparedNetworkId)
      ensures to == Free ==> AtRest()
    {
      match to
      case Free => Reset();
      case In => currentStateSM := InObject(startDhid); cooperateState := In;
      case Out => currentStateSM := OutObject(startDhid); cooperateState := Out;
    }

    method StartInputDeviceCooperate(local: string, remote: string, sendOk: bool) returns (ok: bool, sent: seq<Letter>)
      modifies this
      ensures (View(), sent, ok) == LocalStart(old(View()), local, remote, sendOk)
      ensures SameKind(old(View())) ==> SameKind(View())
      ensures ok <==> sendOk && !old(isStarting) && !old(currentStateSM).OutObject? && remote != "" && local != "" && local != remote
      ensures ok ==> isStarting && sent == [Letter(remote, StartMsg)]
      ensures ok ==> srcNetworkId == if old(cooperateState) == Free then remote else old(srcNetworkId)
      ensures !ok ==> View() == old(View()) && sent == []
    {
      ok, sent := false, [];
      if isStarting {
        return;
      }
      isStarting := true;
      match currentStateSM {
        case OutObject(_) =>
        case _ =>
          if remote != "" && local != "" && remote != local && sendOk {
            ok, sent := true, [Letter(remote, StartMsg)];
          }
      }
      if !ok {
        isStarting := false;
        return;
      }
      if cooperateState == Free {
        srcNetworkId := remote;
      }
    }

    method StopInputDeviceCooperate(origin: string, sendOk: bool) returns (ok: bool, sent: seq<Letter>)
      modifies this
      ensures (View(), sent, ok) == LocalStop(old(View()), origin, sendOk)
      ensures SameKind(old(View())) ==> SameKind(View())
      ensures ok <==> sendOk && !old(isStopping) && !old(currentStateSM).FreeObject?
      ensures ok ==> isStopping && |sent| == 1 && sent[0].msg == StopMsg
      ensures ok && cooperateState != Free ==> sent[0].to == if cooperateState == In then origin else srcNetworkId
      ensures !ok ==> View() == old(View()) && sent == []
    {
      ok, sent := false, [];
      if isStopping {
        return;
      }
      isStopping := true;
      var stopNetworkId := "";
      if cooperateState == In {
        stopNetworkId := origin;
      }
      if cooperateState == Out {
        stopNetworkId := srcNetworkId;
      }
      if !currentStateSM.FreeObject? && sendOk {
        ok, sent := true, [Letter(stopNetworkId, StopMsg)];
      } else {
        isStopping := false;
      }
    }

    method OnStartFinish(ok: bool, remote: string, dhid: string, sink: string) returns (sent: seq<Letter>)
      modifies this
      ensures (View(), sent) == StartFinish(old(View()), ok, remote, dhid, sink)
      ensures SameKind(old(View())) ==> SameKind(View())
      ensures !isStarting
      ensures sent == if !old(isStarting) then [] else
                [Letter(remote, if ok then StartResult(true, dhid) else StartResult(false, ""))]
                + if ok && old(cooperateState) == In && sink != "" && remote != sink then [Letter(sink, OtherResult(remote))] else []
      ensures cooperateState == if !(old(isStarting) && ok) then old(cooperateState) else
                match old(cooperateState) case Free => Out case In => Free case Out => Out
    {
      sent := [];
      if !isStarting {
        return;
      }
      if !ok {
        sent := [Letter(remote, StartResult(false, ""))];
      } else {
        startDhid := dhid;
        sent := [Letter(remote, StartResult(true, dhid))];
        if cooperateState == Free {
          ChangeState(Out);
        } else if cooperateState == In {
          if sink != "" && remote != sink {
            sent := sent + [Letter(sink, OtherResult(remote))];
          }
          ChangeState(Free);
        }
      }
      isStarting := false;
    }

    method OnStopFinish(ok: bool, remote: string) returns (sent: seq<Letter>)
      modifies this
      ensures (View(), sent) == StopFinish(old(View()), ok, remote)
      ensures SameKind(old(View())) ==> SameKind(View())
      ensures !isStopping && sent == (if old(isStopping) then [Letter(remote, StopResult(ok))] else [])
      ensures cooperateState == if old(isStopping) && ok then Free else old(cooperateState)
    {
      sent := [];
      if !isStopping {
        return;
      }
      sent := [Letter(remote, StopResult(ok))];
      if ok && (cooperateState == In || cooperateState == Out) {
        ChangeState(Free);
      }
      isStopping := false;
    }

    /** CheckPointerEvent, for a pointer that is remote or not and belongs to start device `dhid`: a
        local pointer on an IN device, or another than the shared one on an OUT device, stops the
        cooperation.  `forwarded` means that the event goes on to be normalized. */
    method CheckPointerEvent(isRemote: bool, dhid: string, origin: string, sendOk: bool)
      returns (forwarded: bool, stopped: bool, sent: seq<Letter>)
      modifies this
      ensures (View(), sent, stopped) == PointerMoved(old(View()), isRemote, dhid, origin, sendOk)
      ensures SameKind(old(View())) ==> SameKind(View())
      ensures stopped ==> (old(cooperateState == In) && !isRemote) || old(cooperateState == Out && startDhid != dhid)
      ensures sendOk && SameKind(old(View())) && !old(isStarting || isStopping) ==>
                (stopped <==> (old(cooperateState == In) && !isRemote) || old(cooperateState == Out && startDhid != dhid))
      ensures !stopped ==> View() == old(View()) && sent == []
      ensures forwarded <==> !old(isStarting || isStopping) &&
                             ((old(cooperateState) == In && isRemote) || (old(cooperateState) == Free && !isRemote))
    {
      forwarded, stopped, sent := false, false, [];
      if isStopping || isStarting {
        return;
      }
      if cooperateState == In {
        if !isRemote {
          stopped, sent := StopInputDeviceCooperate(origin, sendOk);
          return;
        }
      } else if cooperateState == Out {
        if startDhid != dhid {
          stopped, sent := StopInputDeviceCooperate(origin, sendOk);
        }
        return;
      } else {
        if isRemote {
          return;
        }
      }
      forwarded := true;
    }

    method StartRemoteCooperateResult(ok: bool, dhid: string)
      modifies this
      ensures View() == Receive(old(View()), StartResult(ok, dhid))
      ensures SameKind(old(View())) ==> SameKind(View())
      ensures !isStarting
      ensures cooperateState == if !(old(isStarting) && ok) then old(cooperateState) else
                match old(cooperateState) case Free => In case In => In case Out => Free
    {
      if !isStarting {
        return;
      }
      startDhid := dhid;
      if !ok || cooperateState == In {
        isStarting := false;
        return;
      }
      if cooperateState == Free {
        ChangeState(In);
      } else if cooperateState == Out {
        ChangeState(Free);
      }
      isStarting := false;
    }

    method StopRemoteCooperateResult(ok: bool)
      modifies this
      ensures View() == Receive(old(View()), StopResult(ok))
      ensures SameKind(old(View())) ==> SameKind(View())
      ensures !isStopping
      ensures cooperateState == if old(isStopping) && ok then Free else old(cooperateState)
    {
      if !isStopping {
        return;
      }
      if ok {
        Reset();
      }
      isStopping := false;
    }

    /** Told by its peer that the peer's cooperation was taken on to device `src`. */
    method StartCooperateOtherResult(src: string)
      modifies this`srcNetworkId
      ensures View() == Receive(old(View()), OtherResult(src))
      ensures srcNetworkId == src
    {
      srcNetworkId := src;
    }

    /** UpdatePreparedDevices. */
    method UpdatePreparedDevices(src: string, sink: string)
      modifies this`preparedNetworkId
      ensures View() == Prepared(old(View()), src, sink)
    {
      preparedNetworkId := (src, sink);
    }

    /** Reset(networkId), run when the session to a device closes or the device goes offline. */
    method OnSessionLost(networkId: string, origin: string)
      modifies this
      ensures View() == Disturb(old(View()), SessionLost(networkId, origin))
      ensures if old(cooperateState == Free || networkId == if cooperateState == In then origin else srcNetworkId)
              then AtRest() && preparedNetworkId == ("", "") else View() == old(View())
    {
      var needReset := true;
      if cooperateState == Out && networkId != srcNetworkId {
        needReset := false;
      }
      if cooperateState == In && networkId != origin {
        needReset := false;
      }
      if needReset {
        preparedNetworkId := ("", "");
        Reset();
      }
    }

    method OnCloseCooperation(networkId: string, isLocal: bool, origin: string)
      modifies this
      ensures View() == Disturb(old(View()), Closed(networkId, isLocal, origin))
      ensures preparedNetworkId == ("", "")
      ensures if old(cooperateState != Free && (isLocal || networkId == srcNetworkId || networkId == origin))
              then AtRest() else isStarting == old(isStarting) && cooperateState == old(cooperateState)
    {
      preparedNetworkId := ("", "");
      if cooperateState == Free {
        return;
      }
      if isLocal || networkId == srcNetworkId {
        Reset();
        return;
      }
      if origin == networkId {
        Reset();
      }
    }

    method OnPointerOffline(dhid: string)
      modifies this
      ensures View() == Disturb(old(View()), PointerGone(dhid))
      ensures preparedNetworkId == old(preparedNetworkId)
      ensures if old(cooperateState == Free || startDhid == dhid) then AtRest() else View() == old(View())
    {
      if cooperateState == Free {
        Reset();
        return;
      }
      if startDhid == dhid {
        Reset();
      }
    }
  }
}
