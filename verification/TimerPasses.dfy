/** What a pass of ProcessTimers does to the timers it does not run, and what ends an arming.

    A pass is taken apart into single steps, a firing or a call of a callback each, so that every
    entry that comes or goes can be traced to the step that did it. */
module TimerPasses {
  import opened TimerList
  import opened Timers

  // ---------- timers that are not due ----------

  /** An entry that left the list does not come back: what enters later has a later stamp. */
  lemma NoReturn<C(!new)>(s: Sched<C>, c: Call<C>, t: TimerItem<C>)
    requires Inv(s) && t !in s.items && t.stamp < s.serial
    ensures t !in Apply(s, c).items && Apply(s, c).serial >= s.serial
  {
    match c
    case CallAdd(interval, repeatCount, callback, tick) =>
      var id := FreeId(s.items);
      InsertMembers(s.items, TimerItem(id, Clamp(interval), repeatCount, 0, s.clock + tick + Clamp(interval), callback, |s.armed|, s.serial));
    case CallRemove(id) => RemoveMeans(s, id, 0);
    case CallReset(id, tick) =>
      if HasId(s.items, id) {
        var u := Lookup(s.items, id);
        EraseMembers(s.items, id);
        InsertMembers(Erase(s.items, id),
          u.(nextCallTime := s.clock + tick + u.interval, callbackCount := 0, epoch := |s.armed|, stamp := s.serial));
      }
  }

  lemma {:induction false} NoReturnAll<C(!new)>(s: Sched<C>, cs: seq<Call<C>>, t: TimerItem<C>)
    requires Inv(s) && t !in s.items && t.stamp < s.serial
    ensures t !in ApplyAll(s, cs).items && ApplyAll(s, cs).serial >= s.serial
    decreases |cs|
  {
    if cs != [] {
      NoReturn(s, cs[0], t);
      ApplyKeepsInv(s, cs[0]);
      NoReturnAll(Apply(s, cs[0]), cs[1..], t);
    }
  }

  /** A call takes an entry off the list exactly if it removes or resets its id. */
  lemma CallKeeps<C(!new)>(s: Sched<C>, c: Call<C>, t: TimerItem<C>)
    requires Inv(s) && t in s.items
    ensures t in Apply(s, c).items <==> c.CallAdd? || c.id != t.id
    ensures Apply(s, c).serial >= s.serial
  {
    assert ItemOk(s, t);
    match c
    case CallAdd(interval, repeatCount, callback, tick) =>
      var id := FreeId(s.items);
      InsertMembers(s.items, TimerItem(id, Clamp(interval), repeatCount, 0, s.clock + tick + Clamp(interval), callback, |s.armed|, s.serial));
    case CallRemove(id) => RemoveMeans(s, id, 0);
    case CallReset(id, tick) =>
      IdNamesOne(s.items, t, t);
      if HasId(s.items, id) {
        var u := Lookup(s.items, id);
        LookupIsIn(s.items, id);
        EraseMembers(s.items, id);
        InsertMembers(Erase(s.items, id),
          u.(nextCallTime := s.clock + tick + u.interval, callbackCount := 0, epoch := |s.armed|, stamp := s.serial));
      }
  }

  lemma {:induction false} CallsKeep<C(!new)>(s: Sched<C>, cs: seq<Call<C>>, t: TimerItem<C>)
    requires Inv(s) && t in s.items
    ensures t in ApplyAll(s, cs).items <==> t.id !in Touched(cs)
    decreases |cs|
  {
    if cs != [] {
      var s1 := Apply(s, cs[0]);
      CallKeeps(s, cs[0], t);
      ApplyKeepsInv(s, cs[0]);
      assert ItemOk(s, t);
      if t in s1.items { CallsKeep(s1, cs[1..], t); } else { NoReturnAll(s1, cs[1..], t); }
    }
  }

  /** Firing the head leaves the others where they are, and returns nothing that left before. */
  lemma FireKeeps<C(!new)>(s: Sched<C>, now: int, t: TimerItem<C>)
    requires Inv(s) && s.items != [] && t.stamp < s.serial
    ensures t in FireHead(s, now).items <==> t in s.items && t != s.items[0]
    ensures FireHead(s, now).serial >= s.serial
  {
    var head := s.items[0];
    assert s.items == [head] + s.items[1..];
    if t in s.items[1..] { var i :| 0 <= i < |s.items[1..]| && s.items[1..][i] == t; SortedAt(s.items, 0, i + 1); }
    InsertMembers(s.items[1..], head.(callbackCount := head.callbackCount + 1, nextCallTime := now + head.interval, stamp := s.serial));
  }

  /** No callback among the first `n` firings after the k-th removes or resets the id. */
  predicate Spared<C(!new)>(script: seq<seq<Call<C>>>, k: nat, n: nat, id: int) {
    forall i | 0 <= i < n :: id !in TouchedBy(script, k, i)
  }

  lemma SparedStep<C(!new)>(script: seq<seq<Call<C>>>, k: nat, n: nat, id: int)
    requires n > 0
    ensures Spared(script, k, n, id) <==> id !in Touched(At(script, k)) && Spared(script, k + 1, n - 1, id)
  {
    assert TouchedBy(script, k, 0) == Touched(At(script, k));
    if id !in Touched(At(script, k)) && Spared(script, k + 1, n - 1, id) {
      forall i | 0 <= i < n ensures id !in TouchedBy(script, k, i) {
        if i > 0 { assert TouchedBy(script, k + 1, i - 1) == TouchedBy(script, k, i); }
      }
    }
    if Spared(script, k, n, id) {
      assert id !in TouchedBy(script, k, 0);
      var k1 := k + 1;
      forall i | 0 <= i < n - 1 ensures id !in TouchedBy(script, k1, i) { assert TouchedBy(script, k, i + 1) == TouchedBy(script, k1, i); }
    }
  }

  lemma {:induction false} NoReturnInPass<C(!new)>(s: Sched<C>, now: int, script: seq<seq<Call<C>>>, k: nat, t: TimerItem<C>)
    requires Inv(s) && now <= s.clock && t !in s.items && t.stamp < s.serial
    ensures t !in Pass(s, now, script, k).items
    decreases |Due(s, now)|
  {
    if s.items != [] && s.items[0].nextCallTime <= now {
      var calls := At(script, k);
      TurnDue(s, now, calls);
      PassUnfolds(s, now, script, k);
      FireKeeps(s, now, t);
      FireKeepsInv(s, now);
      if !Stuck(s.items[0], now) {
        NoReturnAll(FireHead(s, now), calls, t);
        KeepShorter(Due(s, now)[1..], NotIn(Touched(calls)));
        NoReturnInPass(Turn(s, now, calls), now, script, k + 1, t);
      }
    }
  }

  /** A pass takes a timer that is not due off the list exactly if a callback that it runs removes
      or resets it; otherwise the entry is unchanged. */
  lemma {:induction false} PassKeepsOthers<C(!new)>(s: Sched<C>, now: int, script: seq<seq<Call<C>>>, k: nat, t: TimerItem<C>)
    requires Inv(s) && now <= s.clock && t in s.items && t.nextCallTime > now
    ensures t in Pass(s, now, script, k).items <==> Spared(script, k, |Drain(Due(s, now), now, script, k).0|, t.id)
    decreases |Due(s, now)|
  {
    HeadOfDue(s, now);
    if s.items[0].nextCallTime <= now {
      var calls := At(script, k);
      var due := Due(s, now);
      var r := Turn(s, now, calls);
      assert ItemOk(s, t);
      TurnDue(s, now, calls);
      PassUnfolds(s, now, script, k);
      FireKeeps(s, now, t);
      FireKeepsInv(s, now);
      if !Stuck(due[0], now) {
        CallsKeep(FireHead(s, now), calls, t);
        KeepShorter(due[1..], NotIn(Touched(calls)));
        DrainCons(due, now, script, k);
        SparedStep(script, k, |Drain(due, now, script, k).0|, t.id);
        if t in r.items {
          PassKeepsOthers(r, now, script, k + 1, t);
        } else {
          TurnSerial(s, now, calls);
          NoReturnInPass(r, now, script, k + 1, t);
        }
      }
    }
  }

  lemma TurnSerial<C(!new)>(s: Sched<C>, now: int, calls: seq<Call<C>>)
    requires Inv(s) && s.items != []
    ensures Turn(s, now, calls).serial >= s.serial && |Turn(s, now, calls).armed| >= |s.armed|
  {
    CallsSerial(FireHead(s, now), calls);
  }

  lemma {:induction false} CallsSerial<C(!new)>(s: Sched<C>, cs: seq<Call<C>>)
    ensures ApplyAll(s, cs).serial >= s.serial && |ApplyAll(s, cs).armed| >= |s.armed|
    decreases |cs|
  {
    if cs != [] { CallsSerial(Apply(s, cs[0]), cs[1..]); }
  }

  // ---------- what comes on the list in a pass ----------

  /** `x` is `t` put back after a firing of the pass. */
  ghost predicate PutBack<C(!new)>(t: TimerItem<C>, x: TimerItem<C>, now: int) {
    x == t.(callbackCount := t.callbackCount + 1, nextCallTime := now + t.interval, stamp := x.stamp)
  }

  lemma CallAdds<C(!new)>(s: Sched<C>, c: Call<C>, x: TimerItem<C>)
    requires Inv(s) && x in Apply(s, c).items && x !in s.items
    ensures x.epoch >= |s.armed| && !c.CallRemove?
  {
    match c
    case CallAdd(interval, repeatCount, callback, tick) =>
      var id := FreeId(s.items);
      InsertMembers(s.items, TimerItem(id, Clamp(interval), repeatCount, 0, s.clock + tick + Clamp(interval), callback, |s.armed|, s.serial));
    case CallRemove(id) => RemoveMeans(s, id, 0);
    case CallReset(id, tick) =>
      if HasId(s.items, id) {
        var u := Lookup(s.items, id);
        EraseMembers(s.items, id);
        InsertMembers(Erase(s.items, id),
          u.(nextCallTime := s.clock + tick + u.interval, callbackCount := 0, epoch := |s.armed|, stamp := s.serial));
      }
  }

  lemma {:induction false} CallsAdd<C(!new)>(s: Sched<C>, cs: seq<Call<C>>, x: TimerItem<C>)
    requires Inv(s) && x in ApplyAll(s, cs).items && x !in s.items
    ensures x.epoch >= |s.armed|
    decreases |cs|
  {
    var s1 := Apply(s, cs[0]);
    ApplyKeepsInv(s, cs[0]);
    CallsSerial(s, cs[..1]);
    assert |s1.armed| >= |s.armed|;
    if x in s1.items { CallAdds(s, cs[0], x); } else { CallsAdd(s1, cs[1..], x); }
  }

  lemma FireAdds<C(!new)>(s: Sched<C>, now: int, x: TimerItem<C>)
    requires Inv(s) && s.items != [] && x in FireHead(s, now).items && x !in s.items
    ensures !Stuck(s.items[0], now) && PutBack(s.items[0], x, now)
  {
    var head := s.items[0];
    assert s.items == [head] + s.items[1..];
    InsertMembers(s.items[1..], head.(callbackCount := head.callbackCount + 1, nextCallTime := now + head.interval, stamp := s.serial));
  }

  /** Whatever is new on the list after a pass was armed by a callback, or is a timer that the pass
      ran, put back. */
  lemma {:induction false} PassAdds<C(!new)>(s: Sched<C>, now: int, script: seq<seq<Call<C>>>, k: nat, x: TimerItem<C>)
    requires Inv(s) && now <= s.clock && x in Pass(s, now, script, k).items && x !in s.items
    ensures x.epoch >= |s.armed| || exists t :: t in Drain(Due(s, now), now, script, k).0 && PutBack(t, x, now)
    decreases |Due(s, now)|
  {
    HeadOfDue(s, now);
    if s.items != [] && s.items[0].nextCallTime <= now {
      var calls := At(script, k);
      var due := Due(s, now);
      var f := FireHead(s, now);
      var r := Turn(s, now, calls);
      TurnDue(s, now, calls);
      PassUnfolds(s, now, script, k);
      FireKeepsInv(s, now);
      if Stuck(due[0], now) {
        FireAdds(s, now, x);
      } else {
        KeepShorter(due[1..], NotIn(Touched(calls)));
        DrainCons(due, now, script, k);
        TurnSerial(s, now, calls);
        if x !in r.items {
          PassAdds(r, now, script, k + 1, x);
        } else if x in f.items {
          FireAdds(s, now, x);
          assert due[0] in Drain(due, now, script, k).0;
        } else {
          CallsAdd(f, calls, x);
        }
      }
    }
  }

  // ---------- single steps ----------

  /** One step of a run: a call, the firing of the head by a pass of clock reading `now`, or a tick
      of the clock. */
  datatype Micro<C> = Asked(call: Call<C>) | Fired(now: int) | Ticked(tick: nat)

  function Do1<C(!new)>(s: Sched<C>, m: Micro<C>): Sched<C> {
    match m
    case Asked(c) => Apply(s, c)
    case Fired(now) => if s.items == [] || now > s.clock then s else FireHead(s, now)
    case Ticked(tick) => s.(clock := s.clock + tick)
  }

  function DoAll<C(!new)>(s: Sched<C>, ms: seq<Micro<C>>): Sched<C>
    decreases |ms|
  {
    if ms == [] then s else DoAll(Do1(s, ms[0]), ms[1..])
  }

  function Asks<C(!new)>(cs: seq<Call<C>>): seq<Micro<C>> { seq(|cs|, i requires 0 <= i < |cs| => Asked(cs[i])) }

  /** The calls among the steps. */
  function Calls<C(!new)>(ms: seq<Micro<C>>): seq<Call<C>> {
    if ms == [] then [] else (if ms[0].Asked? then [ms[0].call] else []) + Calls(ms[1..])
  }

  /** The calls of the callbacks of the first `n` firings after the k-th. */
  function CallsOf<C(!new)>(script: seq<seq<Call<C>>>, k: nat, n: nat): seq<Call<C>>
    decreases n
  {
    if n == 0 then [] else At(script, k) + CallsOf(script, k + 1, n - 1)
  }

  lemma {:induction false} DoAllConcat<C(!new)>(s: Sched<C>, ms: seq<Micro<C>>, ns: seq<Micro<C>>)
    ensures DoAll(s, ms + ns) == DoAll(DoAll(s, ms), ns)
    decreases |ms|
  {
    if ms == [] {
      assert ms + ns == ns;
    } else {
      assert (ms + ns)[0] == ms[0] && (ms + ns)[1..] == ms[1..] + ns;
      DoAllConcat(Do1(s, ms[0]), ms[1..], ns);
    }
  }

  lemma {:induction false} CallsConcat<C(!new)>(ms: seq<Micro<C>>, ns: seq<Micro<C>>)
    ensures Calls(ms + ns) == Calls(ms) + Calls(ns)
  {
    if ms == [] {
      assert ms + ns == ns;
    } else {
      assert (ms + ns)[0] == ms[0] && (ms + ns)[1..] == ms[1..] + ns;
      CallsConcat(ms[1..], ns);
    }
  }

  lemma {:induction false} AsksAre<C(!new)>(s: Sched<C>, cs: seq<Call<C>>)
    ensures DoAll(s, Asks(cs)) == ApplyAll(s, cs) && Calls(Asks(cs)) == cs
    decreases |cs|
  {
    if cs != [] {
      assert Asks(cs)[0] == Asked(cs[0]) && Asks(cs)[1..] == Asks(cs[1..]);
      AsksAre(Apply(s, cs[0]), cs[1..]);
    }
  }

  // ---------- a pass, step by step ----------

  /** The steps `ms` make up a pass that runs `n` callbacks: firings, each followed by the calls of
      its callback, and at the end perhaps the firing of a stuck entry. */
  ghost predicate MakesUp<C(!new)>(ms: seq<Micro<C>>, s: Sched<C>, now: int, script: seq<seq<Call<C>>>, k: nat, n: nat)
    requires Inv(s) && now <= s.clock
  {
    && DoAll(s, ms) == Pass(s, now, script, k)
    && Calls(ms) == CallsOf(script, k, n)
    && forall i | 0 <= i < |ms| :: ms[i].Asked? || ms[i] == Fired(now)
  }

  /** Every pass is made up of such steps, one firing for each callback it runs. */
  lemma {:induction false} PassSteps<C(!new)>(s: Sched<C>, now: int, script: seq<seq<Call<C>>>, k: nat) returns (ms: seq<Micro<C>>)
    requires Inv(s) && now <= s.clock
    ensures MakesUp(ms, s, now, script, k, |Drain(Due(s, now), now, script, k).0|)
    decreases |Due(s, now)|
  {
    HeadOfDue(s, now);
    ms := [];
    if s.items != [] && s.items[0].nextCallTime <= now {
      var calls := At(script, k);
      var due := Due(s, now);
      var r := Turn(s, now, calls);
      TurnDue(s, now, calls);
      PassUnfolds(s, now, script, k);
      if Stuck(due[0], now) {
        ms := [Fired(now)];
        assert ms[1..] == [];
      } else {
        KeepShorter(due[1..], NotIn(Touched(calls)));
        DrainCons(due, now, script, k);
        var rest := PassSteps(r, now, script, k + 1);
        ms := TurnSteps(s, now, calls, rest);
      }
    }
  }

  /** The steps of one turn, put before `rest`. */
  lemma TurnSteps<C(!new)>(s: Sched<C>, now: int, calls: seq<Call<C>>, rest: seq<Micro<C>>) returns (ms: seq<Micro<C>>)
    requires s.items != [] && now <= s.clock && !Stuck(s.items[0], now)
    requires forall i | 0 <= i < |rest| :: rest[i].Asked? || rest[i] == Fired(now)
    ensures DoAll(s, ms) == DoAll(Turn(s, now, calls), rest) && Calls(ms) == calls + Calls(rest)
    ensures forall i | 0 <= i < |ms| :: ms[i].Asked? || ms[i] == Fired(now)
  {
    var tail := Asks(calls) + rest;
    ms := [Fired(now)] + tail;
    assert ms[1..] == tail;
    AsksAre(FireHead(s, now), calls);
    DoAllConcat(FireHead(s, now), Asks(calls), rest);
    CallsConcat(Asks(calls), rest);
  }

  // ---------- what ends an arming ----------

  /** The step takes entry `t` off the list before its last firing: a call removes or resets its
      id, or its next deadline overflows as it fires. */
  ghost predicate Ends<C(!new)>(s: Sched<C>, m: Micro<C>, t: TimerItem<C>) {
    && t in s.items
    && match m
       case Asked(c) => !c.CallAdd? && c.id == t.id
       case Fired(now) => now <= s.clock && s.items[0] == t && Stuck(t, now)
       case Ticked(_) => false
  }

  lemma StepEnds<C(!new)>(s: Sched<C>, m: Micro<C>, e: nat)
    requires Inv(s)
    ensures e in Do1(s, m).ended <==> e in s.ended || exists t :: Ends(s, m, t) && t.epoch == e
  {
    if m.Asked? && !m.call.CallAdd? && HasId(s.items, m.call.id) {
      var u := Lookup(s.items, m.call.id);
      LookupIsIn(s.items, m.call.id);
      assert Ends(s, m, u);
      forall t | Ends(s, m, t) ensures t == u { IdNamesOne(s.items, t, u); }
    } else if m.Asked? && !m.call.CallAdd? {
      UnusedId(s.items, m.call.id);
    } else if m.Fired? && s.items != [] && m.now <= s.clock && Stuck(s.items[0], m.now) {
      assert Ends(s, m, s.items[0]);
    }
  }

  lemma StepKeeps<C(!new)>(s: Sched<C>, m: Micro<C>)
    requires Inv(s)
    ensures Inv(Do1(s, m))
  {
    match m
    case Asked(c) => ApplyKeepsInv(s, c);
    case Fired(now) => if s.items != [] && now <= s.clock { FireKeepsInv(s, now); }
    case Ticked(tick) => TickKeepsInv(s, s.clock + tick);
  }

  /** The states that the steps go through. */
  ghost predicate Path<C(!new)>(ss: seq<Sched<C>>, ms: seq<Micro<C>>) {
    |ss| == |ms| + 1 && Inv(ss[0]) && forall i | 0 <= i < |ms| :: ss[i + 1] == Do1(ss[i], ms[i])
  }

  lemma {:induction false} PathOf<C(!new)>(s: Sched<C>, ms: seq<Micro<C>>) returns (ss: seq<Sched<C>>)
    requires Inv(s)
    ensures Path(ss, ms) && ss[0] == s && ss[|ms|] == DoAll(s, ms)
    decreases |ms|
  {
    if ms == [] {
      ss := [s];
    } else {
      StepKeeps(s, ms[0]);
      var rest := PathOf(Do1(s, ms[0]), ms[1..]);
      ss := [s] + rest;
      forall i | 0 <= i < |ms| ensures ss[i + 1] == Do1(ss[i], ms[i]) {
        if i > 0 { assert ss[i + 1] == rest[i] && ss[i] == rest[i - 1] && ms[i] == ms[1..][i - 1]; }
      }
    }
  }

  lemma {:induction false} PathInv<C(!new)>(ss: seq<Sched<C>>, ms: seq<Micro<C>>, n: nat)
    requires Path(ss, ms) && n <= |ms|
    ensures Inv(ss[n])
  {
    if n > 0 { PathInv(ss, ms, n - 1); StepKeeps(ss[n - 1], ms[n - 1]); }
  }

  /** One of the first `n` steps ends the arming. */
  ghost predicate EndedBy<C(!new)>(ss: seq<Sched<C>>, ms: seq<Micro<C>>, n: nat, e: nat)
    requires n <= |ms| < |ss|
  {
    exists i, t :: 0 <= i < n && Ends(ss[i], ms[i], t) && t.epoch == e
  }

  /** In every run an arming is ended exactly if a call removes or resets its timer while it is on
      the list, or its next deadline overflows as it fires. */
  lemma {:induction false} EndedExactlyWhen<C(!new)>(ss: seq<Sched<C>>, ms: seq<Micro<C>>, n: nat, e: nat)
    requires Path(ss, ms) && n <= |ms|
    ensures e in ss[n].ended <==> e in ss[0].ended || EndedBy(ss, ms, n, e)
  {
    if n > 0 {
      EndedExactlyWhen(ss, ms, n - 1, e);
      PathInv(ss, ms, n - 1);
      StepEnds(ss[n - 1], ms[n - 1], e);
      EndedSnoc(ss, ms, n, e);
    }
  }

  lemma EndedSnoc<C(!new)>(ss: seq<Sched<C>>, ms: seq<Micro<C>>, n: nat, e: nat)
    requires 0 < n <= |ms| < |ss|
    ensures EndedBy(ss, ms, n, e) <==> EndedBy(ss, ms, n - 1, e) || exists t :: Ends(ss[n - 1], ms[n - 1], t) && t.epoch == e
  {
    if EndedBy(ss, ms, n - 1, e) {
      var i, t :| 0 <= i < n - 1 && Ends(ss[i], ms[i], t) && t.epoch == e;
      assert 0 <= i < n && Ends(ss[i], ms[i], t);
    }
  }

  // ---------- every run ----------

  /** What a run asks of the manager: its calls, and in a pass those of the callbacks it runs. */
  ghost function AskedIn<C(!new)>(s: Sched<C>, ops: seq<Op<C>>): seq<Call<C>>
    requires Inv(s)
    decreases |ops|
  {
    if ops == [] then [] else
    StepKeepsInv(s, ops[0]);
    AskedOnce(s, ops[0]) + AskedIn(Step(s, ops[0]), ops[1..])
  }

  ghost function AskedOnce<C(!new)>(s: Sched<C>, op: Op<C>): seq<Call<C>>
    requires Inv(s)
  {
    match op
    case Do(call) => [call]
    case Process(tick, script) =>
      if s.items == [] then [] else
      var s1 := s.(clock := s.clock + tick);
      CallsOf(script, 0, |Drain(Due(s1, s1.clock), s1.clock, script, 0).0|)
  }

  lemma OpSteps<C(!new)>(s: Sched<C>, op: Op<C>) returns (ms: seq<Micro<C>>)
    requires Inv(s)
    ensures DoAll(s, ms) == Step(s, op) && Calls(ms) == AskedOnce(s, op)
  {
    match op
    case Do(call) =>
      ms := [Asked(call)];
      assert ms[1..] == [];
    case Process(tick, script) =>
      if s.items == [] {
        ms := [];
      } else {
        TickKeepsInv(s, s.clock + tick);
        var rest := PassSteps(s.(clock := s.clock + tick), s.clock + tick, script, 0);
        ms := [Ticked(tick)] + rest;
        assert ms[1..] == rest;
      }
  }

  /** Every run is a sequence of single steps with just the calls that it and its callbacks make, so
      that EndedExactlyWhen says of every run what ended its armings. */
  lemma {:induction false} RunSteps<C(!new)>(s: Sched<C>, ops: seq<Op<C>>) returns (ms: seq<Micro<C>>)
    requires Inv(s)
    ensures DoAll(s, ms) == Run(s, ops) && Calls(ms) == AskedIn(s, ops)
    decreases |ops|
  {
    if ops == [] {
      ms := [];
    } else {
      StepKeepsInv(s, ops[0]);
      var first := OpSteps(s, ops[0]);
      var rest := RunSteps(Step(s, ops[0]), ops[1..]);
      ms := first + rest;
      DoAllConcat(s, first, rest);
      CallsConcat(first, rest);
    }
  }

  lemma RunEndsExactlyWhen<C(!new)>(clock: int, ops: seq<Op<C>>) returns (ss: seq<Sched<C>>, ms: seq<Micro<C>>)
    requires Inv(Initial<C>(clock))
    ensures Path(ss, ms) && ss[0] == Initial(clock) && ss[|ms|] == Run(Initial(clock), ops)
    ensures Calls(ms) == AskedIn(Initial(clock), ops)
    ensures forall e :: e in Run(Initial(clock), ops).ended <==> EndedBy(ss, ms, |ms|, e)
  {
    ms := RunSteps(Initial(clock), ops);
    ss := PathOf(Initial(clock), ms);
    forall e ensures e in Run(Initial(clock), ops).ended <==> EndedBy(ss, ms, |ms|, e) { EndedExactlyWhen(ss, ms, |ms|, e); }
  }
}
