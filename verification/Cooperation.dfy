/** The cooperation state machine of one device: each locked method is one function. */
module Cooperation {

  datatype State = Free | In | Out

  /** The object behind currentStateSM_. */
  datatype StateObject = FreeObject | InObject(dhid: string) | OutObject(dhid: string)

  datatype SM = SM(
    state: State, current: StateObject, isStarting: bool, isStopping: bool,
    startDhid: string, srcNetworkId: string, prepared: (string, string))

  datatype Message =
    | StartMsg
    | StartResult(ok: bool, dhid: string)
    | StopMsg
    | StopResult(ok: bool)
    | OtherResult(src: string)

  datatype Letter = Letter(to: string, msg: Message)

  const INITIAL := SM(Free, FreeObject, false, false, "", "", ("", ""))

  /** Reset(bool). */
  function ResetAll(s: SM): SM {
    s.(state := Free, current := FreeObject, isStarting := false, isStopping := false, startDhid := "", srcNetworkId := "")
  }

  function UpdateState(s: SM, to: State): SM {
    match to
    case Free => ResetAll(s)
    case In => s.(state := In, current := InObject(s.startDhid))
    case Out => s.(state := Out, current := OutObject(s.startDhid))
  }

  /** The check the FREE and IN state objects make before sending; an OUT object refuses. */
  predicate StartAllowed(s: SM, local: string, remote: string) {
    !s.current.OutObject? && remote != "" && local != "" && remote != local
  }

  /** StartInputDeviceCooperate; `sendOk` is what the soft bus answers. */
  function LocalStart(s: SM, local: string, remote: string, sendOk: bool): (SM, seq<Letter>, bool) {
    if s.isStarting then (s, [], false)
    else if !StartAllowed(s, local, remote) || !sendOk then (s.(isStarting := false), [], false)
    else
      var t := s.(isStarting := true);
      (if s.state == Free then t.(srcNetworkId := remote) else t, [Letter(remote, StartMsg)], true)
  }

  /** StopInputDeviceCooperate; `origin` is the device behind startDhid_. */
  function LocalStop(s: SM, origin: string, sendOk: bool): (SM, seq<Letter>, bool) {
    if s.isStopping then (s, [], false)
    else if s.current.FreeObject? || !sendOk then (s.(isStopping := false), [], false)
    else
      var to := match s.state case Free => "" case In => origin case Out => s.srcNetworkId;
      (s.(isStopping := true), [Letter(to, StopMsg)], true)
  }

  /** CheckPointerEvent: a local pointer moving on an IN device, or another pointer than the
      shared one moving on an OUT device, stops the cooperation. */
  function PointerMoved(s: SM, isRemote: bool, dhid: string, origin: string, sendOk: bool): (SM, seq<Letter>, bool) {
    if s.isStopping || s.isStarting then (s, [], false)
    else if (s.state == In && !isRemote) || (s.state == Out && s.startDhid != dhid) then LocalStop(s, origin, sendOk)
    else (s, [], false)
  }

  /** OnStartFinish; `dhid` and `sink` describe the start device. */
  function StartFinish(s: SM, ok: bool, remote: string, dhid: string, sink: string): (SM, seq<Letter>) {
    if !s.isStarting then (s, [])
    else if !ok then (s.(isStarting := false), [Letter(remote, StartResult(false, ""))])
    else
      var t := s.(startDhid := dhid);
      var sent := [Letter(remote, StartResult(true, dhid))];
      match s.state
      case Free => (UpdateState(t, Out).(isStarting := false), sent)
      case In => (UpdateState(t, Free),
                  if sink != "" && remote != sink then sent + [Letter(sink, OtherResult(remote))] else sent)
      case Out => (t.(isStarting := false), sent)
  }

  /** OnStopFinish. */
  function StopFinish(s: SM, ok: bool, remote: string): (SM, seq<Letter>) {
    if !s.isStopping then (s, [])
    else
      var t := if ok && s.state != Free then UpdateState(s, Free) else s;
      (t.(isStopping := false), [Letter(remote, StopResult(ok))])
  }

  /** The handling of a peer's message. */
  function Receive(s: SM, m: Message): SM {
    match m
    case StartMsg => s.(isStarting := true)
    case StartResult(ok, dhid) =>
      if !s.isStarting then s else
      var t := s.(startDhid := dhid);
      if !ok || s.state == In then t.(isStarting := false)
      else if s.state == Free then UpdateState(t, In).(isStarting := false)
      else UpdateState(t, Free)
    case StopMsg => s.(isStopping := true)
    case StopResult(ok) =>
      if !s.isStopping then s else (if ok then ResetAll(s) else s).(isStopping := false)
    case OtherResult(src) => s.(srcNetworkId := src)
  }

  /** UpdatePreparedDevices. */
  function Prepared(s: SM, src: string, sink: string): SM { s.(prepared := (src, sink)) }

  /** What may reset a device from outside the protocol. */
  datatype Cause =
    | SessionLost(networkId: string, origin: string)
    | Closed(networkId: string, isLocal: bool, origin: string)
    | PointerGone(dhid: string)

  function Disturb(s: SM, c: Cause): SM {
    match c
    case SessionLost(id, origin) =>
      if (s.state == Out && id != s.srcNetworkId) || (s.state == In && id != origin) then s
      else ResetAll(s.(prepared := ("", "")))
    case Closed(id, isLocal, origin) =>
      var t := s.(prepared := ("", ""));
      if s.state == Free then t
      else if isLocal || id == s.srcNetworkId || origin == id then ResetAll(t)
      else t
    case PointerGone(dhid) =>
      if s.state == Free || s.startDhid == dhid then ResetAll(s) else s
  }

  // ---------- every run of one device ----------

  datatype Event =
    | DoStart(local: string, remote: string, sendOk: bool)
    | DoStop(origin: string, sendOk: bool)
    | DoPointer(isRemote: bool, dhid: string, origin: string, sendOk: bool)
    | DoStartFinish(ok: bool, remote: string, dhid: string, sink: string)
    | DoStopFinish(ok: bool, remote: string)
    | DoReceive(msg: Message)
    | DoPrepare(src: string, sink: string)
    | DoDisturb(cause: Cause)

  function Step(s: SM, e: Event): (SM, seq<Letter>) {
    match e
    case DoStart(local, remote, sendOk) => var r := LocalStart(s, local, remote, sendOk); (r.0, r.1)
    case DoStop(origin, sendOk) => var r := LocalStop(s, origin, sendOk); (r.0, r.1)
    case DoPointer(isRemote, dhid, origin, sendOk) => var r := PointerMoved(s, isRemote, dhid, origin, sendOk); (r.0, r.1)
    case DoStartFinish(ok, remote, dhid, sink) => StartFinish(s, ok, remote, dhid, sink)
    case DoStopFinish(ok, remote) => StopFinish(s, ok, remote)
    case DoReceive(m) => (Receive(s, m), [])
    case DoPrepare(src, sink) => (Prepared(s, src, sink), [])
    case DoDisturb(c) => (Disturb(s, c), [])
  }

  function Run(s: SM, es: seq<Event>): SM {
    if es == [] then s else Step(Run(s, es[..|es| - 1]), es[|es| - 1]).0
  }

  predicate SameKind(s: SM) {
    match s.state
    case Free => s.current.FreeObject?
    case In => s.current.InObject?
    case Out => s.current.OutObject?
  }

  /** The event raises isStarting_: a local start that goes ahead or a peer's request. */
  predicate Raises(s: SM, e: Event) {
    match e
    case DoStart(local, remote, sendOk) => LocalStart(s, local, remote, sendOk).2
    case DoReceive(StartMsg) => true
    case _ => false
  }

  /** The event is a start completion that takes effect. */
  predicate Completes(s: SM, e: Event) {
    s.isStarting && (e.DoStartFinish? || (e.DoReceive? && e.msg.StartResult?))
  }

  function CountRaises(s: SM, es: seq<Event>): nat {
    if es == [] then 0 else
    var before := es[..|es| - 1];
    CountRaises(s, before) + if Raises(Run(s, before), es[|es| - 1]) then 1 else 0
  }

  function CountCompletes(s: SM, es: seq<Event>): nat {
    if es == [] then 0 else
    var before := es[..|es| - 1];
    CountCompletes(s, before) + if Completes(Run(s, before), es[|es| - 1]) then 1 else 0
  }

  lemma StepKeepsKind(s: SM, e: Event)
    requires SameKind(s)
    ensures SameKind(Step(s, e).0)
    ensures !(s.state == In && Step(s, e).0.state == Out) && !(s.state == Out && Step(s, e).0.state == In)
  {
  }

  lemma StepPaysForCompletion(s: SM, e: Event)
    ensures (if Completes(s, e) then 1 else 0) + (if Step(s, e).0.isStarting then 1 else 0)
            <= (if s.isStarting then 1 else 0) + (if Raises(s, e) then 1 else 0)
  {
  }

  /** In every run of a device the state object matches cooperateState_, IN and OUT never
      follow each other without FREE between them, and no more start completions take effect
      than starts were raised. */
  lemma {:induction false} RunInvariant(es: seq<Event>)
    ensures SameKind(Run(INITIAL, es))
    ensures CountCompletes(INITIAL, es) + (if Run(INITIAL, es).isStarting then 1 else 0) <= CountRaises(INITIAL, es)
    ensures forall k | 0 < k <= |es| ::
              var before := Run(INITIAL, es[..k - 1]).state;
              var after := Run(INITIAL, es[..k]).state;
              !(before == In && after == Out) && !(before == Out && after == In)
  {
    if es != [] {
      var before := es[..|es| - 1];
      RunInvariant(before);
      StepKeepsKind(Run(INITIAL, before), es[|es| - 1]);
      StepPaysForCompletion(Run(INITIAL, before), es[|es| - 1]);
      forall k | 0 < k <= |es|
        ensures var b := Run(INITIAL, es[..k - 1]).state;
                var a := Run(INITIAL, es[..k]).state;
                !(b == In && a == Out) && !(b == Out && a == In)
      {
        if k < |es| {
          assert es[..k - 1] == before[..k - 1] && es[..k] == before[..k];
        } else {
          assert es[..k] == es && es[..k - 1] == before;
        }
      }
    }
  }

  /** A second finish call after one that took effect changes nothing and sends nothing. */
  lemma DuplicateFinishIsHarmless(s: SM, ok: bool, remote: string, dhid: string, sink: string,
                                  ok': bool, remote': string, dhid': string, sink': string)
    ensures var once := StartFinish(s, ok, remote, dhid, sink).0;
            StartFinish(once, ok', remote', dhid', sink') == (once, [])
    ensures var once := StopFinish(s, ok, remote).0;
            StopFinish(once, ok', remote') == (once, [])
  {
  }

  /** An OUT device that is told of a new peer stops the cooperation there. */
  lemma OtherResultRedirects(s: SM, src: string, origin: string)
    requires s.state == Out && SameKind(s) && !s.isStopping
    ensures LocalStop(Receive(s, OtherResult(src)), origin, true).1 == [Letter(src, StopMsg)]
  {
  }
}
