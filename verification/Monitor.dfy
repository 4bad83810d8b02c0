/** The isolation flag of the monitored container (backend/monitor.go): any number of Tick,
    Reconnect and IsIsolated calls, interleaved at every lock, read, Docker call, write
    and unlock. Reconnect does not hold the mutex across its Docker call. */
module Monitoring {
  import opened Options
  import opened Sequences

  type Tid = nat

  datatype Pc =
    | Idle
    // Tick, after a Compromised verdict
    | TickHasLock
    | TickIsolating      // read isolated == false, about to disconnect
    | TickDisconnected   // the container is off the network, the flag not yet set
    | TickUnlocking
    // Reconnect
    | ReconnectHasLock
    | ReconnectPassed    // saw isolated == true and released the mutex
    | ReconnectConnected // back on the network, the flag not yet cleared
    | ReconnectRelocked
    | ReconnectUnlocking
    // IsIsolated
    | ObserverHasLock

  datatype State = State(attached: bool, isolated: bool, holder: Option<Tid>, threads: map<Tid, Pc>) {
    function Pc(t: Tid): Pc {
      if t in threads then threads[t] else Idle
    }

    function At(t: Tid, pc: Pc): State {
      this.(threads := threads[t := pc])
    }
  }

  /** What thread `t` does next. Docker's connect fails on an attached container and its
      disconnect on a detached one; a failed call changes nothing. */
  datatype Action =
    | TickLock(t: Tid) | TickRead(t: Tid) | TickDisconnect(t: Tid, ok: bool) | TickSet(t: Tid) | TickUnlock(t: Tid)
    | ReconnectLock(t: Tid) | ReconnectRead(t: Tid) | ReconnectConnect(t: Tid, ok: bool)
    | ReconnectLockAgain(t: Tid) | ReconnectClear(t: Tid) | ReconnectUnlock(t: Tid)
    | ObserverLock(t: Tid) | ObserverUnlock(t: Tid)

  predicate Enabled(s: State, a: Action) {
    match a
    case TickLock(t) => s.Pc(t).Idle? && s.holder.None?
    case TickRead(t) => s.Pc(t).TickHasLock?
    case TickDisconnect(t, ok) => s.Pc(t).TickIsolating? && (ok ==> s.attached)
    case TickSet(t) => s.Pc(t).TickDisconnected?
    case TickUnlock(t) => s.Pc(t).TickUnlocking?
    case ReconnectLock(t) => s.Pc(t).Idle? && s.holder.None?
    case ReconnectRead(t) => s.Pc(t).ReconnectHasLock?
    case ReconnectConnect(t, ok) => s.Pc(t).ReconnectPassed? && (ok ==> !s.attached)
    case ReconnectLockAgain(t) => s.Pc(t).ReconnectConnected? && s.holder.None?
    case ReconnectClear(t) => s.Pc(t).ReconnectRelocked?
    case ReconnectUnlock(t) => s.Pc(t).ReconnectUnlocking?
    case ObserverLock(t) => s.Pc(t).Idle? && s.holder.None?
    case ObserverUnlock(t) => s.Pc(t).ObserverHasLock?
  }

  function Apply(s: State, a: Action): State
    requires Enabled(s, a)
  {
    match a
    case TickLock(t) => s.At(t, TickHasLock).(holder := Some(t))
    case TickRead(t) => s.At(t, if s.isolated then TickUnlocking else TickIsolating)
    case TickDisconnect(t, ok) =>
      if ok then s.At(t, TickDisconnected).(attached := false) else s.At(t, TickUnlocking)
    case TickSet(t) => s.At(t, TickUnlocking).(isolated := true)
    case TickUnlock(t) => s.At(t, Idle).(holder := None)
    case ReconnectLock(t) => s.At(t, ReconnectHasLock).(holder := Some(t))
    case ReconnectRead(t) => s.At(t, if s.isolated then ReconnectPassed else Idle).(holder := None)
    case ReconnectConnect(t, ok) =>
      if ok then s.At(t, ReconnectConnected).(attached := true) else s.At(t, Idle)
    case ReconnectLockAgain(t) => s.At(t, ReconnectRelocked).(holder := Some(t))
    case ReconnectClear(t) => s.At(t, ReconnectUnlocking).(isolated := false)
    case ReconnectUnlock(t) => s.At(t, Idle).(holder := None)
    case ObserverLock(t) => s.At(t, ObserverHasLock).(holder := Some(t))
    case ObserverUnlock(t) => s.At(t, Idle).(holder := None)
  }

  predicate Locked(pc: Pc) {
    pc in {TickHasLock, TickIsolating, TickDisconnected, TickUnlocking,
           ReconnectHasLock, ReconnectRelocked, ReconnectUnlocking, ObserverHasLock}
  }

  /** A Reconnect that is past its Docker call and has not cleared the flag. */
  predicate Past(pc: Pc) {
    pc.ReconnectConnected? || pc.ReconnectRelocked?
  }

  ghost predicate SomePast(s: State) {
    exists t: Tid :: Past(s.Pc(t))
  }

  /** A Tick between its Docker call and setting the flag. */
  ghost predicate MidTick(s: State) {
    s.holder.Some? && s.Pc(s.holder.value).TickDisconnected?
  }

  /** The startup state: InitIsolatedState read `inspected` from Docker, None when that failed. */
  function Start(attached: bool, inspected: Option<bool>): State {
    State(attached, inspected.Some? && inspected.value, None, map[])
  }

  ghost predicate Mutex(s: State) {
    forall t: Tid :: Locked(s.Pc(t)) <==> s.holder == Some(t)
  }

  ghost predicate Inv(s: State) {
    && Mutex(s)
    && (forall t :: s.Pc(t).TickIsolating? || s.Pc(t).TickDisconnected? ==> !s.isolated)
    && (forall t, u :: Past(s.Pc(t)) && Past(s.Pc(u)) ==> t == u)
    && (SomePast(s) ==> s.attached && (s.isolated || MidTick(s)))
    && (!SomePast(s) && MidTick(s) ==> !s.attached)
    && (!SomePast(s) && !MidTick(s) ==> s.isolated == !s.attached)
  }

  lemma MutexStep(s: State, a: Action)
    requires Mutex(s) && Enabled(s, a)
    ensures Mutex(Apply(s, a))
  {
  }

  lemma OthersSame(s: State, a: Action)
    requires Enabled(s, a)
    ensures var s' := Apply(s, a);
      && (forall t: Tid :: t != a.t ==> s'.Pc(t) == s.Pc(t))
      && (SomePast(s') <==> Past(s'.Pc(a.t)) || exists t: Tid :: t != a.t && Past(s.Pc(t)))
      && (SomePast(s) <==> Past(s.Pc(a.t)) || exists t: Tid :: t != a.t && Past(s.Pc(t)))
  {
    var s' := Apply(s, a);
    forall t: Tid | t != a.t ensures s'.Pc(t) == s.Pc(t) {
    }
    if u: Tid :| u != a.t && Past(s.Pc(u)) {
      assert Past(s'.Pc(u));
    }
    if u: Tid :| u != a.t && Past(s'.Pc(u)) {
      assert Past(s.Pc(u));
    }
  }

  predicate OfTick(a: Action) {
    a.TickLock? || a.TickRead? || a.TickDisconnect? || a.TickSet? || a.TickUnlock?
  }

  lemma TickKeepsInv(s: State, a: Action)
    requires Inv(s) && Enabled(s, a) && OfTick(a)
    ensures Inv(Apply(s, a))
  {
    OthersSame(s, a);
  }

  lemma OtherKeepsInv(s: State, a: Action)
    requires Inv(s) && Enabled(s, a) && !OfTick(a)
    ensures Inv(Apply(s, a))
  {
    OthersSame(s, a);
  }

  lemma InvStep(s: State, a: Action)
    requires Inv(s) && Enabled(s, a)
    ensures Inv(Apply(s, a))
  {
    if OfTick(a) {
      TickKeepsInv(s, a);
    } else {
      OtherKeepsInv(s, a);
    }
  }

  ghost predicate Run(start: State, ss: seq<State>, acts: seq<Action>) {
    && |ss| == |acts| + 1 && ss[0] == start
    && forall i :: 0 <= i < |acts| ==> Enabled(ss[i], acts[i]) && ss[i + 1] == Apply(ss[i], acts[i])
  }

  /** The startup inspect succeeded, or its fallback happens to be right. */
  ghost predicate StartsRight(attached: bool, inspected: Option<bool>) {
    inspected == Some(!attached) || (inspected.None? && attached)
  }

  lemma {:induction false} RunInv(attached: bool, inspected: Option<bool>, ss: seq<State>, acts: seq<Action>, i: nat)
    requires Run(Start(attached, inspected), ss, acts) && i < |ss| && StartsRight(attached, inspected)
    ensures Inv(ss[i])
  {
    if i > 0 {
      RunInv(attached, inspected, ss, acts, i - 1);
      InvStep(ss[i - 1], acts[i - 1]);
    }
  }

  lemma {:induction false} RunMutex(attached: bool, inspected: Option<bool>, ss: seq<State>, acts: seq<Action>, i: nat)
    requires Run(Start(attached, inspected), ss, acts) && i < |ss|
    ensures Mutex(ss[i])
  {
    if i > 0 {
      RunMutex(attached, inspected, ss, acts, i - 1);
      MutexStep(ss[i - 1], acts[i - 1]);
    }
  }

  /** Whoever holds the mutex to look at the flag: false means the container is attached;
      true means it is detached, or exactly one Reconnect has reattached it and is
      about to clear the flag. */
  lemma ObserverIsRight(attached: bool, inspected: Option<bool>, ss: seq<State>, acts: seq<Action>, i: nat, t: Tid)
    requires Run(Start(attached, inspected), ss, acts) && i < |ss| && StartsRight(attached, inspected)
    requires ss[i].Pc(t).ObserverHasLock?
    ensures !ss[i].isolated ==> ss[i].attached
    ensures ss[i].isolated ==> !ss[i].attached || SomePast(ss[i])
    ensures forall u, v :: Past(ss[i].Pc(u)) && Past(ss[i].Pc(v)) ==> u == v
  {
    RunInv(attached, inspected, ss, acts, i);
  }

  ghost predicate Quiescent(s: State) {
    forall t :: s.Pc(t).Idle?
  }

  /** Detached with the flag clear, and no call about to change either. */
  ghost predicate Wedged(s: State) {
    && !s.attached && !s.isolated
    && forall t :: !s.Pc(t).ReconnectPassed? && !Past(s.Pc(t)) && !s.Pc(t).TickDisconnected?
  }

  /** With the wrong start (a detached container whose inspect failed) nothing ever repairs
      the flag: Tick cannot disconnect and Reconnect refuses. */
  lemma {:induction false} WrongStartStays(ss: seq<State>, acts: seq<Action>, i: nat)
    requires Run(Start(false, None), ss, acts) && i < |ss|
    ensures Wedged(ss[i])
  {
    if i > 0 {
      WrongStartStays(ss, acts, i - 1);
      var s, t := ss[i - 1], acts[i - 1].t;
      assert !s.Pc(t).ReconnectPassed? && !Past(s.Pc(t)) && !s.Pc(t).TickDisconnected?;
      forall u: Tid | u != t ensures ss[i].Pc(u) == s.Pc(u) {
      }
    }
  }

  /** At quiescence flag and network agree exactly in the runs whose startup inspect succeeded
      or found the container attached. */
  lemma QuiescentAgreement(attached: bool, inspected: Option<bool>, ss: seq<State>, acts: seq<Action>, i: nat)
    requires Run(Start(attached, inspected), ss, acts) && i < |ss| && Quiescent(ss[i])
    requires inspected.Some? ==> inspected.value == !attached
    ensures ss[i].isolated == !ss[i].attached <==> inspected.Some? || attached
  {
    if inspected.Some? || attached {
      RunInv(attached, inspected, ss, acts, i);
    } else {
      WrongStartStays(ss, acts, i);
    }
  }

  // ----- The procedures -----

  /** What other threads do at a point where this one can be preempted. */
  type Others = State -> seq<Action>

  /** `Blocked`: the scheduler left the mutex with another thread. */
  datatype TickResult = Blocked | NoAction | AlreadyIsolated | IsolateFailed | Isolated
  datatype ReconnectResult = Stuck | NotIsolated | ConnectFailed | Reconnected

  /** `events` are the elements of `lines` at the ascending places `at`: exactly the valid ones. */
  ghost predicate Picks(lines: seq<string>, valid: string -> bool, events: seq<string>, at: seq<nat>) {
    && |at| == |events|
    && (forall k :: 0 <= k < |at| ==> at[k] < |lines| && events[k] == lines[at[k]] && valid(events[k]))
    && (forall j, k :: 0 <= j < k < |at| ==> at[j] < at[k])
    && (forall i :: 0 <= i < |lines| && valid(lines[i]) ==> i in at)
  }

  lemma PickNext(lines: seq<string>, valid: string -> bool, events: seq<string>, at: seq<nat>, i: nat)
    requires i < |lines| && Picks(lines[..i], valid, events, at)
    ensures valid(lines[i]) ==> Picks(lines[..i + 1], valid, events + [lines[i]], at + [i])
    ensures !valid(lines[i]) ==> Picks(lines[..i + 1], valid, events, at)
  {
    assert forall j :: 0 <= j < i ==> lines[..i + 1][j] == lines[..i][j];
    assert lines[..i + 1][i] == lines[i];
    assert forall j :: j in at ==> j in at + [i];
    assert (at + [i])[|at|] == i;
  }

  /** Nobody else does anything. */
  ghost predicate Alone(others: Others) {
    forall s :: others(s) == []
  }

  /** The thread has returned; if it isolated the container, that is detached and the flag set. */
  function Ended(s: State, t: Tid, isolated: bool): State {
    if isolated then State(false, true, None, s.threads[t := Idle]) else State(s.attached, s.isolated, None, s.threads[t := Idle])
  }

  /** What the critical section does when nobody else acts. */
  ghost predicate SectionAlone(s: State, s': State, dockerOk: bool, result: TickResult) {
    && (result.Blocked? <==> s.holder.Some?)
    && (s.holder.None? ==> (result.AlreadyIsolated? <==> s.isolated))
    && (s.holder.None? && !s.isolated ==> (result.Isolated? <==> dockerOk && s.attached))
    && (result.Isolated? ==> !s'.attached && s'.isolated)
    && (!result.Isolated? ==> s'.attached == s.attached && s'.isolated == s.isolated)
  }

  /** What Reconnect does when nobody else acts. */
  ghost predicate ReconnectAlone(s: State, s': State, dockerOk: bool, result: ReconnectResult) {
    && (result.Stuck? <==> s.holder.Some?)
    && (s.holder.None? ==> (result.NotIsolated? <==> !s.isolated))
    && (s.holder.None? && s.isolated ==> (result.Reconnected? <==> dockerOk && !s.attached))
    && (result.Reconnected? ==> s'.attached && !s'.isolated)
    && (!result.Reconnected? ==> s'.attached == s.attached && s'.isolated == s.isolated)
  }

  /** The mutex is with a thread other than `t`. */
  predicate HeldByOther(s: State, t: Tid) {
    s.holder.Some? && s.holder != Some(t)
  }

  /** Since step `from`, thread `t` has not taken a step of the given kind. */
  ghost predicate Never(steps: seq<Action>, from: nat, t: Tid, kind: Action -> bool) {
    forall k :: from <= k < |steps| && steps[k].t == t ==> !kind(steps[k])
  }

  predicate IsDisconnect(a: Action) { a.TickDisconnect? }
  predicate IsConnect(a: Action) { a.ReconnectConnect? }
  predicate IsClear(a: Action) { a.ReconnectClear? }

  /** The state after the given actions, if each was enabled. */
  ghost function Exec(start: State, acts: seq<Action>): Option<State>
    decreases |acts|
  {
    if acts == [] then Some(start)
    else
      var k := |acts| - 1;
      match Exec(start, acts[..k])
      case None => None
      case Some(s) => if Enabled(s, acts[k]) then Some(Apply(s, acts[k])) else None
  }

  lemma {:induction false} ExecIsRun(start: State, acts: seq<Action>) returns (ss: seq<State>)
    requires Exec(start, acts).Some?
    ensures Run(start, ss, acts) && ss[|acts|] == Exec(start, acts).value
    decreases |acts|
  {
    if acts == [] {
      ss := [start];
    } else {
      var k := |acts| - 1;
      var before := ExecIsRun(start, acts[..k]);
      ss := before + [Exec(start, acts).value];
      forall i | 0 <= i < |acts| ensures Enabled(ss[i], acts[i]) && ss[i + 1] == Apply(ss[i], acts[i]) {
        assert ss[i] == before[i];
        assert i < k ==> acts[..k][i] == acts[i] && ss[i + 1] == before[i + 1];
      }
    }
  }

  class Monitor {
    var st: State
    ghost const attached: bool
    ghost const inspected: Option<bool>
    ghost var steps: seq<Action>

    ghost predicate Valid() reads this {
      (inspected.Some? ==> inspected.value == !attached) && Exec(Start(attached, inspected), steps) == Some(st)
    }

    /** NewMonitor and InitIsolatedState, whether or not the inspect succeeds. */
    constructor (attached: bool, inspected: Option<bool>)
      requires inspected.Some? ==> inspected.value == !attached
      ensures Valid() && st == Start(attached, inspected)
    {
      this.attached, this.inspected := attached, inspected;
      st, steps := Start(attached, inspected), [];
    }

    lemma Facts()
      requires Valid()
      ensures Mutex(st)
      ensures StartsRight(attached, inspected) ==> Inv(st)
      ensures !StartsRight(attached, inspected) ==> Wedged(st)
    {
      var ss := ExecIsRun(Start(attached, inspected), steps);
      RunMutex(attached, inspected, ss, steps, |steps|);
      if StartsRight(attached, inspected) {
        RunInv(attached, inspected, ss, steps, |steps|);
      } else {
        WrongStartStays(ss, steps, |steps|);
      }
    }

    method Do(a: Action)
      requires Valid() && Enabled(st, a)
      modifies this
      ensures Valid() && st == Apply(old(st), a) && steps == old(steps) + [a]
    {
      assert (steps + [a])[..|steps|] == steps;
      st, steps := Apply(st, a), steps + [a];
    }

    method Meanwhile(t: Tid, others: Others)
      requires Valid()
      modifies this
      ensures Valid() && old(steps) <= steps && st.Pc(t) == old(st.Pc(t))
      ensures forall k :: |old(steps)| <= k < |steps| ==> steps[k].t != t
      ensures old(st).holder == Some(t) ==> st.holder == Some(t) && st.isolated == old(st).isolated
      ensures Alone(others) ==> st == old(st)
    {
      var acts := others(st);
      for i := 0 to |acts|
        invariant Valid() && old(steps) <= steps && st.Pc(t) == old(st.Pc(t))
        invariant forall k :: |old(steps)| <= k < |steps| ==> steps[k].t != t
        invariant old(st).holder == Some(t) ==> st.holder == Some(t) && st.isolated == old(st).isolated
        invariant acts == [] ==> st == old(st)
      {
        if Enabled(st, acts[i]) && acts[i].t != t {
          Facts();
          Do(acts[i]);
        }
      }
    }

    method CollectEvents(lines: seq<string>, valid: string -> bool) returns (events: seq<string>, ghost at: seq<nat>)
      ensures Picks(lines, valid, events, at)
      ensures events == Filter(valid, lines)
    {
      events, at := [], [];
      for i := 0 to |lines|
        invariant Picks(lines[..i], valid, events, at) && events == Filter(valid, lines[..i])
      {
        PickNext(lines, valid, events, at, i);
        assert lines[..i + 1][..i] == lines[..i];
        if valid(lines[i]) {
          events, at := events + [lines[i]], at + [i];
        }
      }
      assert lines[..|lines|] == lines;
    }

    /** Tick, given the poller's lines and the verdict on a batch. It acts if and only if a batch of
        at least one event is Compromised; only another holder of the mutex, a flag already set,
        or a failing Docker call then keep it from isolating the container. When it says
        Isolated it has just set the flag on a container that is detached or being reattached. */
    method Tick(t: Tid, lines: seq<string>, valid: string -> bool, compromised: seq<string> -> bool, dockerOk: bool, others: Others)
      returns (result: TickResult)
      requires Valid() && st.Pc(t).Idle?
      modifies this
      ensures Valid() && old(steps) <= steps && st.Pc(t).Idle?
      ensures result.NoAction? <==> Filter(valid, lines) == [] || !compromised(Filter(valid, lines))
      ensures result.NoAction? ==> st == old(st)
      ensures !result.NoAction? ==> SectionResult(|old(steps)|, t, dockerOk, result)
      ensures Alone(others) && !result.NoAction? ==> SectionAlone(old(st), st, dockerOk, result)
    {
      var events, _ := CollectEvents(lines, valid);
      if |events| == 0 || !compromised(events) {
        return NoAction;
      }
      result := TickSection(t, dockerOk, others);
    }

    /** What each answer of the critical section means: nothing but its cause, and what it leaves. A
        failed Docker call is the only way to fail, but for a container whose failed startup
        inspect found it detached. */
    ghost predicate SectionResult(from: nat, t: Tid, dockerOk: bool, result: TickResult)
      reads this
    {
      match result
      case NoAction => false
      case Blocked => HeldByOther(st, t) && Never(steps, from, t, IsDisconnect)
      case AlreadyIsolated => st.isolated && Never(steps, from, t, IsDisconnect)
      case IsolateFailed => !st.isolated && !(dockerOk && StartsRight(attached, inspected))
      case Isolated => dockerOk && StartsRight(attached, inspected) && st.isolated && (!st.attached || SomePast(st))
    }

    /** Tick's critical section. */
    method TickSection(t: Tid, dockerOk: bool, others: Others) returns (result: TickResult)
      requires Valid() && st.Pc(t).Idle?
      modifies this
      ensures Valid() && old(steps) <= steps && st.Pc(t).Idle?
      ensures SectionResult(|old(steps)|, t, dockerOk, result)
      ensures Alone(others) ==> SectionAlone(old(st), st, dockerOk, result)
    {
      var locked := TickLooks(t, others);
      if !locked {
        return Blocked;
      }
      if st.Pc(t).TickUnlocking? {
        Do(TickUnlock(t));
        return AlreadyIsolated;
      }
      result := Isolate(t, dockerOk, others);
    }

    /** Tick takes the mutex, if it is free, and reads the flag. */
    method TickLooks(t: Tid, others: Others) returns (locked: bool)
      requires Valid() && st.Pc(t).Idle?
      modifies this
      ensures Valid() && old(steps) <= steps && Never(steps, |old(steps)|, t, IsDisconnect)
      ensures !locked ==> st.Pc(t).Idle? && HeldByOther(st, t)
      ensures locked ==> st.holder == Some(t) && st.Pc(t) == (if st.isolated then TickUnlocking else TickIsolating)
      ensures Alone(others) ==>
        && (locked <==> old(st).holder.None?) && st.attached == old(st).attached && st.isolated == old(st).isolated
    {
      Meanwhile(t, others);
      locked := st.holder.None?;
      if !locked {
        Facts();
        return;
      }
      Do(TickLock(t));
      Meanwhile(t, others);
      Do(TickRead(t));
      Meanwhile(t, others);
    }

    /** The end of Tick's critical section, which found the container not isolated. */
    method Isolate(t: Tid, dockerOk: bool, others: Others) returns (result: TickResult)
      requires Valid() && st.Pc(t).TickIsolating? && st.holder == Some(t) && !st.isolated
      modifies this
      ensures Valid() && old(steps) <= steps && st.Pc(t).Idle?
      ensures result == if dockerOk && StartsRight(attached, inspected) then Isolated else IsolateFailed
      ensures result.IsolateFailed? ==> !st.isolated
      ensures result.Isolated? ==> st.isolated && (!st.attached || SomePast(st))
      ensures result == if dockerOk && old(st).attached then Isolated else IsolateFailed
      ensures Alone(others) ==> st == Ended(old(st), t, result.Isolated?)
    {
      Facts();
      NotPast(st, t);
      var ok := dockerOk && st.attached;
      Do(TickDisconnect(t, ok));
      Meanwhile(t, others);
      if !ok {
        Do(TickUnlock(t));
        return IsolateFailed;
      }
      Finish(t, others);
      return Isolated;
    }

    lemma NotPast(s: State, t: Tid)
      requires s.Pc(t).TickIsolating? && s.holder == Some(t) && !s.isolated
      requires StartsRight(attached, inspected) ==> Inv(s)
      requires !StartsRight(attached, inspected) ==> Wedged(s)
      ensures s.attached <==> StartsRight(attached, inspected)
    {
    }

    /** Tick sets the flag and releases the mutex. */
    method Finish(t: Tid, others: Others)
      requires Valid() && st.Pc(t).TickDisconnected?
      modifies this
      ensures Valid() && old(steps) <= steps && st.Pc(t).Idle?
      ensures st.isolated && (!st.attached || SomePast(st))
      ensures Alone(others) ==> st == State(old(st).attached, true, None, old(st).threads[t := Idle])
    {
      Facts();
      Do(TickSet(t));
      Meanwhile(t, others);
      Do(TickUnlock(t));
      Facts();
    }

    /** Reconnect. A nil return (`Reconnected`) leaves the flag clear and the container attached;
        a refusal, on a clear flag, has not called Docker; after a failed call to Docker, whose only
        other cause is that another Reconnect has been faster, the flag has not been written. */
    method Reconnect(t: Tid, dockerOk: bool, others: Others) returns (result: ReconnectResult)
      requires Valid() && st.Pc(t).Idle?
      modifies this
      ensures Valid() && old(steps) <= steps && (result.Stuck? || st.Pc(t).Idle?)
      ensures result.Reconnected? ==> dockerOk && !st.isolated && st.attached
      ensures result.NotIsolated? ==> !st.isolated && Never(steps, |old(steps)|, t, IsConnect)
      ensures result in {NotIsolated, ConnectFailed} ==> Never(steps, |old(steps)|, t, IsClear)
      ensures result.Stuck? ==> HeldByOther(st, t)
      ensures result.ConnectFailed? ==> !dockerOk || st.attached
      ensures Alone(others) ==> ReconnectAlone(old(st), st, dockerOk, result)
    {
      result := ReadFlag(t, others);
      if !st.Pc(t).ReconnectPassed? {
        return;
      }
      Meanwhile(t, others);
      var ok := dockerOk && !st.attached;
      Do(ReconnectConnect(t, ok));
      if !ok {
        return ConnectFailed;
      }
      result := Clear(t, others);
    }

    /** The first critical section of Reconnect. */
    method ReadFlag(t: Tid, others: Others) returns (result: ReconnectResult)
      requires Valid() && st.Pc(t).Idle?
      modifies this
      ensures Valid() && old(steps) <= steps && (st.Pc(t).Idle? || st.Pc(t).ReconnectPassed?)
      ensures st.Pc(t).Idle? ==> result in {Stuck, NotIsolated} && (result.NotIsolated? ==> !st.isolated)
      ensures Never(steps, |old(steps)|, t, IsConnect) && Never(steps, |old(steps)|, t, IsClear)
      ensures st.Pc(t).Idle? && result.Stuck? ==> HeldByOther(st, t)
      ensures Alone(others) ==>
        && st.attached == old(st).attached && st.isolated == old(st).isolated
        && (st.Pc(t).ReconnectPassed? <==> old(st).holder.None? && old(st).isolated)
        && (st.Pc(t).Idle? ==> (result.Stuck? <==> old(st).holder.Some?))
        && (old(st).holder.None? ==> st.holder.None?)
    {
      Meanwhile(t, others);
      if st.holder.Some? {
        Facts();
        return Stuck;
      }
      Do(ReconnectLock(t));
      Meanwhile(t, others);
      Do(ReconnectRead(t));
      return NotIsolated;
    }

    /** The end of Reconnect, once Docker has connected the container. */
    method Clear(t: Tid, others: Others) returns (result: ReconnectResult)
      requires Valid() && st.Pc(t).ReconnectConnected?
      modifies this
      ensures Valid() && old(steps) <= steps && (result.Stuck? || st.Pc(t).Idle?)
      ensures result.Stuck? || result.Reconnected?
      ensures result.Reconnected? ==> !st.isolated && st.attached
      ensures result.Stuck? ==> HeldByOther(st, t)
      ensures Alone(others) && old(st).holder.None? ==> result.Reconnected?
    {
      Facts();
      assert Past(st.Pc(t));
      Meanwhile(t, others);
      if st.holder.Some? {
        Facts();
        return Stuck;
      }
      Do(ReconnectLockAgain(t));
      Meanwhile(t, others);
      Do(ReconnectClear(t));
      Meanwhile(t, others);
      Facts();
      Do(ReconnectUnlock(t));
      return Reconnected;
    }
  }
}
