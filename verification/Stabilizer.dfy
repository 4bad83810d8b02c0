/** interceptor/stabilizer.go as steps. A timer's callback starts (Fire), takes the lock and
    deletes the path's entry (Lock), and sends the path (Send); touches and cancels may come in
    between. Times are milliseconds of the monotonic clock. */
module Stabilizing {
  import opened Options
  import opened Sequences

  const SETTLE_DELAY := 750

  datatype Phase = Armed | Firing | Sending | Done | Stopped
  datatype Timer = Timer(path: string, armedAt: int, phase: Phase)
  datatype Announcement = Announcement(path: string, timer: nat, at: int)

  /** `registered` is the timers map of the source; `timers` lists every timer ever armed. */
  datatype State = State(now: int, timers: seq<Timer>, registered: map<string, nat>, announced: seq<Announcement>)

  datatype Op = Touch(path: string) | Cancel(path: string) | Wait(ms: nat)
    | Fire(timer: nat) | Lock(timer: nat) | Send(timer: nat)
    | Expire(timer: nat)  // Fire and Lock in one step

  const START := State(0, [], map[], [])

  function In(timers: seq<Timer>, i: nat, phase: Phase): seq<Timer>
    requires i < |timers|
  {
    timers[i := timers[i].(phase := phase)]
  }

  /** time.Timer.Stop: without effect once the callback has started. */
  function StopTimer(timers: seq<Timer>, i: nat): seq<Timer>
    requires i < |timers|
  {
    if timers[i].phase.Armed? then In(timers, i, Stopped) else timers
  }

  predicate Due(s: State, i: nat) {
    i < |s.timers| && s.timers[i].phase.Armed? && s.now >= s.timers[i].armedAt + SETTLE_DELAY
  }

  predicate IsIn(s: State, i: nat, phase: Phase) {
    i < |s.timers| && s.timers[i].phase == phase
  }

  predicate Registered(s: State, path: string) {
    path in s.registered && s.registered[path] < |s.timers|
  }

  /** A step that is not possible changes nothing. */
  function Step(s: State, op: Op): State {
    match op
    case Touch(path) =>
      var timers := if Registered(s, path) then StopTimer(s.timers, s.registered[path]) else s.timers;
      s.(timers := timers + [Timer(path, s.now, Armed)], registered := s.registered[path := |timers|])
    case Cancel(path) =>
      if Registered(s, path) then
        s.(timers := StopTimer(s.timers, s.registered[path]), registered := s.registered - {path})
      else s
    case Wait(ms) => s.(now := s.now + ms)
    case Fire(i) => if Due(s, i) then s.(timers := In(s.timers, i, Firing)) else s
    case Lock(i) =>
      if IsIn(s, i, Firing) then
        s.(timers := In(s.timers, i, Sending), registered := s.registered - {s.timers[i].path})
      else s
    case Send(i) =>
      if IsIn(s, i, Sending) then
        s.(timers := In(s.timers, i, Done), announced := s.announced + [Announcement(s.timers[i].path, i, s.now)])
      else s
    case Expire(i) =>
      if Due(s, i) then
        s.(timers := In(s.timers, i, Sending), registered := s.registered - {s.timers[i].path})
      else s
  }

  /** Expire is Fire and Lock with nothing in between. */
  lemma ExpireIsFireAndLock(s: State, i: nat)
    requires IsIn(s, i, Armed)
    ensures Step(s, Expire(i)) == Step(Step(s, Fire(i)), Lock(i))
  {
  }

  function Run(ops: seq<Op>): State {
    if ops == [] then START else Step(Run(ops[..|ops| - 1]), ops[|ops| - 1])
  }

  // --- Every run -----------------------------------------------------------------------------

  function For(path: string): Timer -> bool {
    (t: Timer) => t.path == path
  }

  function DoneFor(path: string): Timer -> bool {
    (t: Timer) => t.path == path && t.phase.Done?
  }

  function TouchOf(path: string): Op -> bool {
    op => op == Touch(path)
  }

  function Tells(path: string): Announcement -> bool {
    (a: Announcement) => a.path == path
  }

  ghost predicate Inv(s: State) {
    Shape(s) && Told(s)
  }

  predicate Shape(s: State) {
    && (forall p :: p in s.registered ==> s.registered[p] < |s.timers| && s.timers[s.registered[p]].path == p)
    && (forall i :: 0 <= i < |s.timers| ==> InTime(s.timers[i], s.now))
  }

  /** A timer runs its callback no earlier than the settle delay after its touch. */
  predicate InTime(timer: Timer, now: int) {
    timer.armedAt <= now && (timer.phase in {Firing, Sending, Done} ==> timer.armedAt + SETTLE_DELAY <= now)
  }

  predicate Told(s: State) {
    && (forall k :: 0 <= k < |s.announced| ==> Announced(s, s.announced[k]))
    && (forall i :: 0 <= i < |s.timers| && s.timers[i].phase.Done? ==> HasAnnouncement(s, i))
  }

  /** An announcement is by a timer of its path, at least the settle delay after its touch. */
  predicate Announced(s: State, a: Announcement) {
    && a.timer < |s.timers| && s.timers[a.timer].phase.Done? && s.timers[a.timer].path == a.path
    && s.timers[a.timer].armedAt + 750 <= a.at <= s.now
  }

  predicate HasAnnouncement(s: State, i: nat) {
    exists k :: 0 <= k < |s.announced| && s.announced[k].timer == i
  }

  /** Timers never leave their path and time, and Done and Stopped are final. */
  ghost predicate Extends(s: State, t: State) {
    && |s.timers| <= |t.timers|
    && (forall i :: 0 <= i < |s.timers| ==>
          && t.timers[i].path == s.timers[i].path && t.timers[i].armedAt == s.timers[i].armedAt
          && (s.timers[i].phase in {Done, Stopped} ==> t.timers[i].phase == s.timers[i].phase))
    && s.announced <= t.announced && s.now <= t.now
  }

  lemma StepKeepsShape(s: State, op: Op)
    requires Shape(s)
    ensures Shape(Step(s, op))
  {
  }

  lemma StepExtends(s: State, op: Op)
    requires Shape(s)
    ensures Extends(s, Step(s, op))
    ensures var t := Step(s, op);
      forall i :: 0 <= i < |t.timers| && t.timers[i].phase.Done? ==>
        (i < |s.timers| && s.timers[i].phase.Done?) || (op == Send(i) && IsIn(s, i, Sending))
  {
  }

  lemma StepKeepsInv(s: State, op: Op)
    requires Inv(s)
    ensures Inv(Step(s, op)) && Extends(s, Step(s, op))
  {
    var t := Step(s, op);
    StepKeepsShape(s, op);
    StepExtends(s, op);
    assert t.announced == s.announced || (op.Send? && IsIn(s, op.timer, Sending)
      && t.announced == s.announced + [Announcement(s.timers[op.timer].path, op.timer, s.now)]);
    forall k | 0 <= k < |t.announced| ensures Announced(t, t.announced[k]) {
      if k < |s.announced| {
        assert Announced(s, s.announced[k]);
      }
    }
    forall i | 0 <= i < |t.timers| && t.timers[i].phase.Done? ensures HasAnnouncement(t, i) {
      if i < |s.timers| && s.timers[i].phase.Done? {
        assert HasAnnouncement(s, i);
        var k :| 0 <= k < |s.announced| && s.announced[k].timer == i;
        assert t.announced[k].timer == i;
      } else {
        assert t.announced[|s.announced|].timer == i;
      }
    }
  }

  lemma {:induction false} RunKeepsInv(ops: seq<Op>)
    ensures Inv(Run(ops))
  {
    if ops != [] {
      RunKeepsInv(ops[..|ops| - 1]);
      StepKeepsInv(Run(ops[..|ops| - 1]), ops[|ops| - 1]);
    }
  }

  /** Touches of `path` are timers of `path`, and its finished timers are its announcements. */
  ghost predicate CountsStep(s: State, op: Op, path: string) {
    var t := Step(s, op);
    && |Filter(For(path), t.timers)| == |Filter(For(path), s.timers)| + (if op == Touch(path) then 1 else 0)
    && |Filter(DoneFor(path), t.timers)| - |Filter(DoneFor(path), s.timers)|
       == |Filter(Tells(path), t.announced)| - |Filter(Tells(path), s.announced)|
  }

  lemma TouchCounts(s: State, p: string, path: string)
    requires Inv(s)
    ensures CountsStep(s, Touch(p), path)
  {
    var timers := if p in s.registered then StopTimer(s.timers, s.registered[p]) else s.timers;
    if p in s.registered {
      StopCounts(s.timers, s.registered[p], path);
    }
    FilterAppend(For(path), timers, Timer(p, s.now, Armed));
    FilterAppend(DoneFor(path), timers, Timer(p, s.now, Armed));
  }

  lemma SendCounts(s: State, i: nat, path: string)
    requires IsIn(s, i, Sending)
    ensures CountsStep(s, Send(i), path)
  {
    PhaseCounts(s.timers, i, Done, path);
    FilterAppend(Tells(path), s.announced, Announcement(s.timers[i].path, i, s.now));
  }

  lemma StepCounts(s: State, op: Op, path: string)
    requires Inv(s)
    ensures CountsStep(s, op, path)
  {
    match op
    case Touch(p) => TouchCounts(s, p, path);
    case Cancel(p) =>
      if p in s.registered {
        StopCounts(s.timers, s.registered[p], path);
      }
    case Wait(_) =>
    case Fire(i) => if Due(s, i) { PhaseCounts(s.timers, i, Firing, path); }
    case Lock(i) => if IsIn(s, i, Firing) { PhaseCounts(s.timers, i, Sending, path); }
    case Send(i) => if IsIn(s, i, Sending) { SendCounts(s, i, path); }
    case Expire(i) => if Due(s, i) { PhaseCounts(s.timers, i, Sending, path); }
  }

  lemma PhaseCounts(timers: seq<Timer>, i: nat, phase: Phase, path: string)
    requires i < |timers| && !timers[i].phase.Done?
    ensures |Filter(For(path), In(timers, i, phase))| == |Filter(For(path), timers)|
    ensures |Filter(DoneFor(path), In(timers, i, phase))|
         == |Filter(DoneFor(path), timers)| + if timers[i].path == path && phase.Done? then 1 else 0
  {
    FilterUpdate(For(path), timers, i, timers[i].(phase := phase));
    FilterUpdate(DoneFor(path), timers, i, timers[i].(phase := phase));
  }

  lemma StopCounts(timers: seq<Timer>, i: nat, path: string)
    requires i < |timers|
    ensures |Filter(For(path), StopTimer(timers, i))| == |Filter(For(path), timers)|
    ensures |Filter(DoneFor(path), StopTimer(timers, i))| == |Filter(DoneFor(path), timers)|
  {
    if timers[i].phase.Armed? {
      PhaseCounts(timers, i, Stopped, path);
    }
  }

  lemma {:induction false} RunCounts(ops: seq<Op>, path: string)
    ensures |Filter(For(path), Run(ops).timers)| == |Filter(TouchOf(path), ops)|
    ensures |Filter(DoneFor(path), Run(ops).timers)| == |Filter(Tells(path), Run(ops).announced)|
  {
    if ops != [] {
      RunCounts(ops[..|ops| - 1], path);
      RunKeepsInv(ops[..|ops| - 1]);
      StepCounts(Run(ops[..|ops| - 1]), ops[|ops| - 1], path);
    }
  }

  /** A path is never announced more often than it is touched. */
  lemma NoMoreThanTouches(ops: seq<Op>, path: string)
    ensures |Filter(Tells(path), Run(ops).announced)| <= |Filter(TouchOf(path), ops)|
  {
    RunCounts(ops, path);
    FilterWeaker(DoneFor(path), For(path), Run(ops).timers);
  }

  /** The timer of the last touch of `path` that no cancel followed. */
  function LastTouch(ops: seq<Op>, path: string): Option<nat> {
    if ops == [] then None
    else
      var before := ops[..|ops| - 1];
      match ops[|ops| - 1]
      case Touch(p) => if p == path then Some(|Run(before).timers|) else LastTouch(before, path)
      case Cancel(p) => if p == path then None else LastTouch(before, path)
      case _ => LastTouch(before, path)
  }

  /** All callbacks have run to their end. */
  predicate Settled(s: State) {
    forall i :: 0 <= i < |s.timers| ==> s.timers[i].phase.Done? || s.timers[i].phase.Stopped?
  }

  lemma {:induction false} LastTouchIsLive(ops: seq<Op>, path: string)
    requires LastTouch(ops, path).Some?
    ensures var s, i := Run(ops), LastTouch(ops, path).value;
      i < |s.timers| && s.timers[i].path == path && !s.timers[i].phase.Stopped?
  {
    var before, op := ops[..|ops| - 1], ops[|ops| - 1];
    RunKeepsInv(before);
    if op != Touch(path) {
      LastTouchIsLive(before, path);
    }
  }

  predicate Tell(a: Announcement, t: Timer, i: nat, path: string) {
    a.timer == i && a.path == path && a.at >= t.armedAt + 750
  }

  predicate AnnouncedBy(s: State, i: nat, path: string) {
    i < |s.timers| && exists k :: 0 <= k < |s.announced| && Tell(s.announced[k], s.timers[i], i, path)
  }

  /** Late callbacks never swallow a file: once every timer has run, a path whose last touch no
      cancel followed has been announced by that very touch, at least the settle delay after it. */
  lemma LastTouchIsAnnounced(ops: seq<Op>, path: string)
    requires LastTouch(ops, path).Some? && Settled(Run(ops))
    ensures AnnouncedBy(Run(ops), LastTouch(ops, path).value, path)
  {
    var s, i := Run(ops), LastTouch(ops, path).value;
    LastTouchIsLive(ops, path);
    RunKeepsInv(ops);
    assert HasAnnouncement(s, i);
    var k :| 0 <= k < |s.announced| && s.announced[k].timer == i;
    assert Announced(s, s.announced[k]);
  }

  // --- Runs in which a callback fires and locks in one step ------------------------------------

  predicate Atomic(ops: seq<Op>) {
    forall i :: 0 <= i < |ops| ==> !ops[i].Fire? && !ops[i].Lock?
  }

  /** The registered timers are the armed ones, each its path's latest touch. */
  ghost predicate OneTimer(s: State) {
    Shape(s) && ArmedAreRegistered(s) && NewestIsRegistered(s)
  }

  predicate ArmedAreRegistered(s: State)
    requires Shape(s)
  {
    && (forall i :: 0 <= i < |s.timers| && s.timers[i].phase.Armed? ==>
          s.timers[i].path in s.registered && s.registered[s.timers[i].path] == i)
    && (forall i :: 0 <= i < |s.timers| ==> !s.timers[i].phase.Firing?)
    && (forall p :: p in s.registered ==> s.timers[s.registered[p]].phase.Armed?)
  }

  ghost predicate NewestIsRegistered(s: State)
    requires Shape(s)
  {
    forall p, j :: p in s.registered && 0 <= j < |s.timers| && s.timers[j].path == p ==>
      s.timers[j].armedAt <= s.timers[s.registered[p]].armedAt
  }

  lemma TouchKeepsOneTimer(s: State, path: string)
    requires OneTimer(s)
    ensures OneTimer(Step(s, Touch(path)))
  {
    StepKeepsShape(s, Touch(path));
    TouchKeepsArmed(s, path);
  }

  lemma TouchKeepsArmed(s: State, path: string)
    requires OneTimer(s) && Shape(Step(s, Touch(path)))
    ensures ArmedAreRegistered(Step(s, Touch(path)))
  {
    var t := Step(s, Touch(path));
    forall i | 0 <= i < |t.timers| && t.timers[i].phase.Armed?
      ensures t.timers[i].path in t.registered && t.registered[t.timers[i].path] == i
    {
      if i < |s.timers| {
        assert s.timers[i].phase.Armed?;
      }
    }
  }

  lemma ExpireKeepsOneTimer(s: State, i: nat)
    requires OneTimer(s)
    ensures OneTimer(Step(s, Expire(i)))
  {
    StepKeepsShape(s, Expire(i));
  }

  lemma StepKeepsOneTimer(s: State, op: Op)
    requires OneTimer(s) && !op.Fire? && !op.Lock?
    ensures OneTimer(Step(s, op))
  {
    match op
    case Touch(path) => TouchKeepsOneTimer(s, path);
    case Expire(i) => ExpireKeepsOneTimer(s, i);
    case Cancel(_) => StepKeepsShape(s, op);
    case Wait(_) => StepKeepsShape(s, op);
    case Send(_) => StepKeepsShape(s, op);
  }

  lemma {:induction false} RunKeepsOneTimer(ops: seq<Op>)
    requires Atomic(ops)
    ensures OneTimer(Run(ops))
  {
    if ops != [] {
      RunKeepsOneTimer(ops[..|ops| - 1]);
      StepKeepsOneTimer(Run(ops[..|ops| - 1]), ops[|ops| - 1]);
    }
  }

  lemma TouchKeepsNewest(s: State, path: string)
    requires Shape(s) && NewestIsRegistered(s) && Shape(Step(s, Touch(path)))
    ensures NewestIsRegistered(Step(s, Touch(path)))
  {
  }

  lemma OtherTimersStay(s: State, op: Op)
    requires Shape(s) && !op.Touch?
    ensures var t := Step(s, op);
      && |t.timers| == |s.timers|
      && (forall i :: 0 <= i < |s.timers| ==>
            t.timers[i].path == s.timers[i].path && t.timers[i].armedAt == s.timers[i].armedAt)
      && (forall p :: p in t.registered ==> p in s.registered && t.registered[p] == s.registered[p])
  {
  }

  lemma StepKeepsNewest(s: State, op: Op)
    requires Shape(s) && NewestIsRegistered(s)
    ensures Shape(Step(s, op)) && NewestIsRegistered(Step(s, op))
  {
    StepKeepsShape(s, op);
    if op.Touch? {
      TouchKeepsNewest(s, op.path);
    } else {
      OtherTimersStay(s, op);
      KeepsNewest(s, Step(s, op));
    }
  }

  lemma KeepsNewest(s: State, t: State)
    requires Shape(s) && NewestIsRegistered(s) && Shape(t) && |t.timers| == |s.timers|
    requires forall i :: 0 <= i < |s.timers| ==>
      t.timers[i].path == s.timers[i].path && t.timers[i].armedAt == s.timers[i].armedAt
    requires forall p :: p in t.registered ==> p in s.registered && t.registered[p] == s.registered[p]
    ensures NewestIsRegistered(t)
  {
  }

  lemma {:induction false} RunKeepsNewest(ops: seq<Op>)
    ensures Shape(Run(ops)) && NewestIsRegistered(Run(ops))
  {
    if ops != [] {
      RunKeepsNewest(ops[..|ops| - 1]);
      StepKeepsNewest(Run(ops[..|ops| - 1]), ops[|ops| - 1]);
    }
  }

  /** In every run: when a timer falls due that still is the registered one of its path, the
      path's latest touch lies at least the settle delay back. */
  lemma QuietWhenRegistered(ops: seq<Op>, i: nat, j: nat)
    requires Due(Run(ops), i) && j < |Run(ops).timers| && Run(ops).timers[j].path == Run(ops).timers[i].path
    requires var s := Run(ops); s.timers[i].path in s.registered && s.registered[s.timers[i].path] == i
    ensures Run(ops).timers[j].armedAt + SETTLE_DELAY <= Run(ops).now
  {
    RunKeepsNewest(ops);
  }

  /** If firing and locking are one step, every timer that falls due is the registered one. */
  lemma QuietAtExpiry(ops: seq<Op>, i: nat, j: nat)
    requires Atomic(ops) && Due(Run(ops), i)
    requires j < |Run(ops).timers| && Run(ops).timers[j].path == Run(ops).timers[i].path
    ensures Run(ops).timers[j].armedAt + SETTLE_DELAY <= Run(ops).now
  {
    RunKeepsOneTimer(ops);
    QuietWhenRegistered(ops, i, j);
  }

  // --- How often a path is announced -----------------------------------------------------------

  /** Bursts of touches of `path` begun, bursts cancelled, and touches and cancels that came
      while the callback of the path's registered timer had started. */
  function Bursts(ops: seq<Op>, path: string): nat {
    if ops == [] then 0
    else
      var before := ops[..|ops| - 1];
      Bursts(before, path) + if ops[|ops| - 1] == Touch(path) && path !in Run(before).registered then 1 else 0
  }

  function Cancelled(ops: seq<Op>, path: string): nat {
    if ops == [] then 0
    else
      var before := ops[..|ops| - 1];
      Cancelled(before, path) + if ops[|ops| - 1] == Cancel(path) && path in Run(before).registered then 1 else 0
  }

  predicate Overtakes(s: State, op: Op, path: string) {
    && (op == Touch(path) || op == Cancel(path))
    && Registered(s, path) && s.timers[s.registered[path]].phase.Firing?
  }

  predicate OvertakesAt(ops: seq<Op>, i: nat, path: string)
    requires i < |ops|
  {
    Overtakes(Run(ops[..i]), ops[i], path)
  }

  function Overtaken(ops: seq<Op>, path: string): nat {
    if ops == [] then 0
    else
      var before := ops[..|ops| - 1];
      Overtaken(before, path) + if Overtakes(Run(before), ops[|ops| - 1], path) then 1 else 0
  }

  function SentFor(path: string): Timer -> bool {
    (t: Timer) => t.path == path && (t.phase.Sending? || t.phase.Done?)
  }

  function LiveFor(path: string): Timer -> bool {
    (t: Timer) => t.path == path && (t.phase.Armed? || t.phase.Firing?)
  }

  function Sent(s: State, path: string): nat {
    |Filter(SentFor(path), s.timers)|
  }

  /** Timers that have yet to send. */
  function Live(s: State, path: string): nat {
    |Filter(LiveFor(path), s.timers)|
  }

  /** A registered timer has not got as far as taking the lock. */
  ghost predicate RegisteredAreLive(s: State)
    requires Shape(s)
  {
    forall p :: p in s.registered ==> s.timers[s.registered[p]].phase in {Armed, Firing}
  }

  lemma StepKeepsLive(s: State, op: Op)
    requires Shape(s) && RegisteredAreLive(s)
    ensures Shape(Step(s, op)) && RegisteredAreLive(Step(s, op))
  {
    StepKeepsShape(s, op);
  }

  lemma {:induction false} RunKeepsLive(ops: seq<Op>)
    ensures Shape(Run(ops)) && RegisteredAreLive(Run(ops))
  {
    if ops != [] {
      RunKeepsLive(ops[..|ops| - 1]);
      StepKeepsLive(Run(ops[..|ops| - 1]), ops[|ops| - 1]);
    }
  }

  /** Timers of `path` that will send or have sent. */
  function Tally(timers: seq<Timer>, path: string): nat {
    |Filter(SentFor(path), timers)| + |Filter(LiveFor(path), timers)|
  }

  function Counts(t: Timer, path: string): nat {
    if t.path == path && !t.phase.Stopped? then 1 else 0
  }

  lemma TallyAfter(timers: seq<Timer>, i: nat, phase: Phase, path: string)
    requires i < |timers|
    ensures Tally(In(timers, i, phase), path) + Counts(timers[i], path)
         == Tally(timers, path) + Counts(timers[i].(phase := phase), path)
  {
    FilterUpdate(SentFor(path), timers, i, timers[i].(phase := phase));
    FilterUpdate(LiveFor(path), timers, i, timers[i].(phase := phase));
  }

  lemma TallyStopped(timers: seq<Timer>, i: nat, path: string)
    requires i < |timers|
    ensures Tally(StopTimer(timers, i), path) == Tally(timers, path)
      - if timers[i].path == path && timers[i].phase.Armed? then 1 else 0
  {
    if timers[i].phase.Armed? {
      TallyAfter(timers, i, Stopped, path);
    }
  }

  lemma TouchTallies(s: State, p: string, path: string)
    requires Shape(s) && RegisteredAreLive(s)
    ensures Tally(Step(s, Touch(p)).timers, path) == Tally(s.timers, path)
      + (if p == path && path !in s.registered then 1 else 0) + if Overtakes(s, Touch(p), path) then 1 else 0
  {
    var timers := if p in s.registered then StopTimer(s.timers, s.registered[p]) else s.timers;
    if p in s.registered {
      TallyStopped(s.timers, s.registered[p], path);
    }
    FilterAppend(SentFor(path), timers, Timer(p, s.now, Armed));
    FilterAppend(LiveFor(path), timers, Timer(p, s.now, Armed));
  }

  lemma StepTallies(s: State, op: Op, path: string)
    requires Shape(s) && RegisteredAreLive(s)
    ensures Tally(Step(s, op).timers, path) + (if op == Cancel(path) && path in s.registered then 1 else 0)
      == Tally(s.timers, path)
         + (if op == Touch(path) && path !in s.registered then 1 else 0) + if Overtakes(s, op, path) then 1 else 0
  {
    match op
    case Touch(p) => TouchTallies(s, p, path);
    case Cancel(p) =>
      if p in s.registered {
        TallyStopped(s.timers, s.registered[p], path);
      }
    case Wait(_) =>
    case Fire(i) => if Due(s, i) { TallyAfter(s.timers, i, Firing, path); }
    case Lock(i) => if IsIn(s, i, Firing) { TallyAfter(s.timers, i, Sending, path); }
    case Send(i) => if IsIn(s, i, Sending) { TallyAfter(s.timers, i, Done, path); }
    case Expire(i) => if Due(s, i) { TallyAfter(s.timers, i, Sending, path); }
  }

  /** In every run: each burst begun and each overtaking accounts for one timer that sends,
      apart from the bursts cancelled. */
  lemma {:induction false} BurstsAreSent(ops: seq<Op>, path: string)
    ensures Sent(Run(ops), path) + Live(Run(ops), path) + Cancelled(ops, path) == Bursts(ops, path) + Overtaken(ops, path)
  {
    if ops != [] {
      var before := ops[..|ops| - 1];
      BurstsAreSent(before, path);
      RunKeepsLive(before);
      StepTallies(Run(before), ops[|ops| - 1], path);
    }
  }

  /** Once every timer has run, a path has been announced once per burst that was not
      cancelled, and once more for every touch or cancel that overtook a started callback. */
  lemma AnnouncementsCount(ops: seq<Op>, path: string)
    requires Settled(Run(ops))
    ensures |Filter(Tells(path), Run(ops).announced)| + Cancelled(ops, path) == Bursts(ops, path) + Overtaken(ops, path)
  {
    var s := Run(ops);
    BurstsAreSent(ops, path);
    RunCounts(ops, path);
    FilterWeaker(SentFor(path), DoneFor(path), s.timers);
    FilterWeaker(DoneFor(path), SentFor(path), s.timers);
    FilterKeeps(LiveFor(path), s.timers);
  }

  /** Per path, announcements and cancelled bursts add up to the bursts begun, if and only if no
      touch or cancel of the path came after a callback of it had started and before that took
      the lock. EachBurstOnce says it of every single burst. */
  lemma OncePerBurst(ops: seq<Op>, path: string)
    requires Settled(Run(ops))
    ensures |Filter(Tells(path), Run(ops).announced)| + Cancelled(ops, path) == Bursts(ops, path)
      <==> forall i :: 0 <= i < |ops| ==> !OvertakesAt(ops, i, path)
  {
    AnnouncementsCount(ops, path);
    NoneOvertaken(ops, |ops|, path);
    assert ops[..|ops|] == ops;
  }

  lemma {:induction false} NoneOvertaken(ops: seq<Op>, k: nat, path: string)
    requires k <= |ops|
    ensures Overtaken(ops[..k], path) == 0 <==> forall i :: 0 <= i < k ==> !OvertakesAt(ops, i, path)
  {
    if k > 0 {
      var last := k - 1;
      NoneOvertaken(ops, last, path);
      OvertakenPrefix(ops, last, path);
      assert (forall i :: 0 <= i < k ==> !OvertakesAt(ops, i, path))
        <==> (forall i :: 0 <= i < last ==> !OvertakesAt(ops, i, path)) && !OvertakesAt(ops, last, path);
    }
  }

  // --- Each burst by itself ---

  predicate IsLive(t: Timer) {
    t.phase.Armed? || t.phase.Firing?
  }

  /** No timer of `path` will send but perhaps the registered one. */
  ghost predicate OnlyRegisteredLive(s: State, path: string) {
    forall i :: 0 <= i < |s.timers| && s.timers[i].path == path && IsLive(s.timers[i]) ==>
      path in s.registered && s.registered[path] == i
  }

  lemma StepKeepsOnlyRegistered(s: State, op: Op, path: string)
    requires Shape(s) && OnlyRegisteredLive(s, path) && !Overtakes(s, op, path)
    ensures OnlyRegisteredLive(Step(s, op), path)
  {
    var t := Step(s, op);
    forall i | 0 <= i < |t.timers| && t.timers[i].path == path && IsLive(t.timers[i])
      ensures path in t.registered && t.registered[path] == i
    {
      if i < |s.timers| {
        assert s.timers[i].path == path && IsLive(s.timers[i]);
      }
    }
  }

  lemma {:induction false} RunKeepsOnlyRegistered(ops: seq<Op>, k: nat, path: string)
    requires k <= |ops| && forall i :: 0 <= i < k ==> !OvertakesAt(ops, i, path)
    ensures OnlyRegisteredLive(Run(ops[..k]), path)
  {
    if k > 0 {
      var last := k - 1;
      RunKeepsOnlyRegistered(ops, last, path);
      RunKeepsLive(ops[..last]);
      assert !OvertakesAt(ops, last, path);
      RunPrefix(ops, last);
      StepKeepsOnlyRegistered(Run(ops[..last]), ops[last], path);
    }
  }

  /** Between bursts everything begun has been sent or cancelled. */
  lemma BetweenBursts(ops: seq<Op>, k: nat, path: string)
    requires k <= |ops| && forall i :: 0 <= i < k ==> !OvertakesAt(ops, i, path)
    requires path !in Run(ops[..k]).registered
    ensures Live(Run(ops[..k]), path) == 0
    ensures Sent(Run(ops[..k]), path) + Cancelled(ops[..k], path) == Bursts(ops[..k], path)
  {
    RunKeepsOnlyRegistered(ops, k, path);
    FilterKeeps(LiveFor(path), Run(ops[..k]).timers);
    BurstsAreSent(ops[..k], path);
    NoneOvertaken(ops, k, path);
  }

  /** The timers of `s` that are past their callback's lock, or stopped, stay so in `t`. */
  ghost predicate KeepsSent(s: State, t: State, path: string) {
    && |s.timers| <= |t.timers|
    && (forall i :: 0 <= i < |s.timers| ==> t.timers[i].path == s.timers[i].path)
    && forall i :: 0 <= i < |s.timers| && !IsLive(s.timers[i]) ==>
         !IsLive(t.timers[i]) && SentFor(path)(t.timers[i]) == SentFor(path)(s.timers[i])
  }

  lemma StepKeepsSent(s: State, op: Op, path: string)
    ensures KeepsSent(s, Step(s, op), path)
  {
  }

  /** In the burst that the touch at `p` begins, up to `q`, the path stays registered. */
  ghost predicate InBurst(ops: seq<Op>, p: nat, q: nat, path: string)
    requires p < q <= |ops|
  {
    && ops[p] == Touch(path) && path !in Run(ops[..p]).registered
    && forall k :: p < k < q ==> path in Run(ops[..k]).registered
  }

  lemma BurstGoesOn(ops: seq<Op>, p: nat, q: nat, path: string)
    requires p < q <= |ops| && InBurst(ops, p, q, path)
    ensures Bursts(ops[..q], path) == Bursts(ops[..p], path) + 1
    ensures KeepsSent(Run(ops[..p]), Run(ops[..q]), path)
  {
    BurstBegun(ops, p, q, path);
    SentFrom(ops, p, q, path);
  }

  lemma {:induction false} BurstBegun(ops: seq<Op>, p: nat, q: nat, path: string)
    requires p < q <= |ops| && InBurst(ops, p, q, path)
    ensures Bursts(ops[..q], path) == Bursts(ops[..p], path) + 1
  {
    var last := q - 1;
    BurstsPrefix(ops, last, path);
    if p < last {
      BurstBegun(ops, p, last, path);
    }
  }

  lemma {:induction false} SentFrom(ops: seq<Op>, p: nat, q: nat, path: string)
    requires p < q <= |ops|
    ensures KeepsSent(Run(ops[..p]), Run(ops[..q]), path)
  {
    var last := q - 1;
    PrefixKeepsSent(ops, last, path);
    if p < last {
      SentFrom(ops, p, last, path);
      SentTwice(Run(ops[..p]), Run(ops[..last]), Run(ops[..q]), path);
    }
  }

  lemma BurstsPrefix(ops: seq<Op>, k: nat, path: string)
    requires k < |ops|
    ensures Bursts(ops[..k + 1], path) == Bursts(ops[..k], path)
      + if ops[k] == Touch(path) && path !in Run(ops[..k]).registered then 1 else 0
  {
    assert ops[..k + 1][..k] == ops[..k];
  }

  lemma PrefixKeepsSent(ops: seq<Op>, k: nat, path: string)
    requires k < |ops|
    ensures KeepsSent(Run(ops[..k]), Run(ops[..k + 1]), path)
  {
    RunPrefix(ops, k);
    StepKeepsSent(Run(ops[..k]), ops[k], path);
  }

  lemma SentTwice(s: State, m: State, t: State, path: string)
    requires KeepsSent(s, m, path) && KeepsSent(m, t, path)
    ensures KeepsSent(s, t, path)
  {
  }

  /** Later sends are those of timers armed later. */
  lemma SentSince(s: State, t: State, path: string)
    requires KeepsSent(s, t, path) && OnlyRegisteredLive(s, path) && path !in s.registered
    ensures Sent(t, path) == Sent(s, path) + |Filter(SentFor(path), t.timers[|s.timers|..])|
  {
    var n := |s.timers|;
    FilterSame(SentFor(path), t.timers[..n], s.timers);
    FilterConcat(SentFor(path), t.timers[..n], t.timers[n..]);
    assert t.timers == t.timers[..n] + t.timers[n..];
  }

  /** A burst from its first touch at `p` to the moment `q` at which the path is no longer
      registered: either it was cancelled and none of its timers sends, or exactly one of its
      timers has sent or is about to, and no cancel took it. */
  lemma EachBurstOnce(ops: seq<Op>, p: nat, q: nat, path: string)
    requires p < q <= |ops| && InBurst(ops, p, q, path) && path !in Run(ops[..q]).registered
    requires forall i :: 0 <= i < q ==> !OvertakesAt(ops, i, path)
    ensures |Run(ops[..p]).timers| <= |Run(ops[..q]).timers|
    ensures |Filter(SentFor(path), Run(ops[..q]).timers[|Run(ops[..p]).timers|..])|
      + (Cancelled(ops[..q], path) - Cancelled(ops[..p], path)) == 1
  {
    BetweenBursts(ops, p, path);
    BetweenBursts(ops, q, path);
    BurstGoesOn(ops, p, q, path);
    RunKeepsOnlyRegistered(ops, p, path);
    SentSince(Run(ops[..p]), Run(ops[..q]), path);
  }

  lemma StepAnnounces(s: State, op: Op)
    ensures var t := Step(s, op);
      t.announced == s.announced || (op.Send? && IsIn(s, op.timer, Sending)
        && t.announced == s.announced + [Announcement(s.timers[op.timer].path, op.timer, s.now)])
  {
  }

  ghost predicate TimersDiffer(announced: seq<Announcement>) {
    forall j, k :: 0 <= j < k < |announced| ==> announced[j].timer != announced[k].timer
  }

  lemma StepAnnouncesNew(s: State, op: Op)
    requires Told(s) && TimersDiffer(s.announced)
    ensures TimersDiffer(Step(s, op).announced)
  {
    StepAnnounces(s, op);
    forall j | 0 <= j < |s.announced| ensures !IsIn(s, s.announced[j].timer, Sending) {
      assert Announced(s, s.announced[j]);
    }
  }

  /** No timer is announced twice. */
  lemma {:induction false} AnnouncedOnce(ops: seq<Op>)
    ensures TimersDiffer(Run(ops).announced)
  {
    if ops != [] {
      RunKeepsInv(ops[..|ops| - 1]);
      AnnouncedOnce(ops[..|ops| - 1]);
      StepAnnouncesNew(Run(ops[..|ops| - 1]), ops[|ops| - 1]);
    }
  }

  /** In particular when firing and locking are one step. */
  lemma BurstsAnnouncedOnce(ops: seq<Op>, path: string)
    requires Atomic(ops) && Settled(Run(ops))
    ensures |Filter(Tells(path), Run(ops).announced)| + Cancelled(ops, path) == Bursts(ops, path)
  {
    forall i | 0 <= i < |ops| ensures !OvertakesAt(ops, i, path) {
      RunKeepsOneTimer(ops[..i]);
    }
    OncePerBurst(ops, path);
  }

  // --- A callback that is overtaken ------------------------------------------------------------

  lemma RunAppend(ops: seq<Op>, op: Op)
    ensures Run(ops + [op]) == Step(Run(ops), op)
  {
    assert (ops + [op])[..|ops|] == ops;
  }

  /** The first timer has fired when the second touch comes: its announcement follows that touch
      at once, and it takes the second timer's entry with it, so the cancel finds nothing. */
  lemma OvertakenCallback(path: string)
    ensures var ops := [Touch(path), Wait(750), Fire(0), Touch(path), Lock(0), Send(0), Cancel(path)]
                       + [Wait(750), Fire(1), Lock(1), Send(1)];
      Run(ops) == State(1500, [Timer(path, 0, Done), Timer(path, 750, Done)], map[],
                        [Announcement(path, 0, 750), Announcement(path, 1, 1500)])
      && LastTouch(ops, path) == None && Settled(Run(ops)) && Overtaken(ops, path) == 1
  {
    var a := [Touch(path), Wait(750), Fire(0), Touch(path), Lock(0), Send(0), Cancel(path)];
    FirstHalf(path, a);
    SecondHalf(path, a);
    assert a[..6] + [Cancel(path)] == a;
    NothingAfterCancel(a, [Wait(750), Fire(1), Lock(1), Send(1)], path);
    OvertakenOnce(path, a);
  }

  lemma SecondHalf(path: string, a: seq<Op>)
    requires Run(a) == State(750, [Timer(path, 0, Done), Timer(path, 750, Armed)], map[], [Announcement(path, 0, 750)])
    ensures Run(a + [Wait(750), Fire(1), Lock(1), Send(1)])
         == State(1500, [Timer(path, 0, Done), Timer(path, 750, Done)], map[],
                  [Announcement(path, 0, 750), Announcement(path, 1, 1500)])
  {
    RunAppend(a, Wait(750));
    var b := a + [Wait(750)];
    RunAppend(b, Fire(1));
    var c := b + [Fire(1)];
    assert Run(c) == State(1500, [Timer(path, 0, Done), Timer(path, 750, Firing)], map[], [Announcement(path, 0, 750)]);
    RunAppend(c, Lock(1));
    RunAppend(c + [Lock(1)], Send(1));
    assert a + [Wait(750), Fire(1), Lock(1), Send(1)] == c + [Lock(1)] + [Send(1)];
  }

  lemma FirstHalf(path: string, ops: seq<Op>)
    requires ops == [Touch(path), Wait(750), Fire(0), Touch(path), Lock(0), Send(0), Cancel(path)]
    ensures Run(ops) == State(750, [Timer(path, 0, Done), Timer(path, 750, Armed)], map[], [Announcement(path, 0, 750)])
    ensures Run(ops[..3]) == State(750, [Timer(path, 0, Firing)], map[path := 0], [])
    ensures Run(ops[..6]).registered == map[]
  {
    UpToFire(path, ops);
    RunPrefix(ops, 3);
    assert Run(ops[..4]) == State(750, [Timer(path, 0, Firing), Timer(path, 750, Armed)], map[path := 1], []);
    RunPrefix(ops, 4);
    assert Run(ops[..5]) == State(750, [Timer(path, 0, Sending), Timer(path, 750, Armed)], map[], []);
    RunPrefix(ops, 5);
    RunPrefix(ops, 6);
    assert ops[..7] == ops;
  }

  lemma UpToFire(path: string, ops: seq<Op>)
    requires |ops| >= 3 && ops[0] == Touch(path) && ops[1] == Wait(750) && ops[2] == Fire(0)
    ensures Run(ops[..3]) == State(750, [Timer(path, 0, Firing)], map[path := 0], [])
  {
    assert Run(ops[..0]) == START;
    RunPrefix(ops, 0);
    assert Run(ops[..1]) == State(0, [Timer(path, 0, Armed)], map[path := 0], []);
    RunPrefix(ops, 1);
    RunPrefix(ops, 2);
  }

  lemma OvertakenOnce(path: string, ops: seq<Op>)
    requires ops == [Touch(path), Wait(750), Fire(0), Touch(path), Lock(0), Send(0), Cancel(path)]
    ensures Overtaken(ops, path) == 1
  {
    SecondTouchOvertakes(path, ops);
    FirstHalf(path, ops);
    CancelFindsNothing(path, ops);
  }

  lemma CancelFindsNothing(path: string, ops: seq<Op>)
    requires |ops| == 7 && ops[4] == Lock(0) && ops[5] == Send(0) && ops[6] == Cancel(path)
    requires Run(ops[..6]).registered == map[]
    ensures Overtaken(ops, path) == Overtaken(ops[..4], path)
  {
    NotOvertaken(ops, 4, path);
    NotOvertaken(ops, 5, path);
    OvertakenPrefix(ops, 6, path);
    assert ops[..7] == ops;
  }

  lemma SecondTouchOvertakes(path: string, ops: seq<Op>)
    requires |ops| >= 4 && ops[0] == Touch(path) && ops[1] == Wait(750) && ops[2] == Fire(0) && ops[3] == Touch(path)
    ensures Overtaken(ops[..4], path) == 1
  {
    assert Run(ops[..0]) == START;
    OvertakenPrefix(ops, 0, path);
    NotOvertaken(ops, 1, path);
    NotOvertaken(ops, 2, path);
    UpToFire(path, ops);
    OvertakenPrefix(ops, 3, path);
  }

  lemma NotOvertaken(ops: seq<Op>, k: nat, path: string)
    requires k < |ops| && !ops[k].Touch? && !ops[k].Cancel?
    ensures Overtaken(ops[..k + 1], path) == Overtaken(ops[..k], path)
  {
    assert ops[..k + 1][..k] == ops[..k];
  }

  lemma OvertakenPrefix(ops: seq<Op>, k: nat, path: string)
    requires k < |ops|
    ensures Overtaken(ops[..k + 1], path) == Overtaken(ops[..k], path) + if OvertakesAt(ops, k, path) then 1 else 0
  {
    assert ops[..k + 1][..k] == ops[..k];
  }

  lemma RunPrefix(ops: seq<Op>, k: nat)
    requires k < |ops|
    ensures Run(ops[..k + 1]) == Step(Run(ops[..k]), ops[k])
  {
    assert ops[..k + 1][..k] == ops[..k];
  }

  lemma {:induction false} NothingAfterCancel(ops: seq<Op>, more: seq<Op>, path: string)
    requires LastTouch(ops, path).None? && forall i :: 0 <= i < |more| ==> !more[i].Touch? && !more[i].Cancel?
    ensures LastTouch(ops + more, path).None? && Overtaken(ops + more, path) == Overtaken(ops, path)
    decreases |more|
  {
    if more == [] {
      assert ops + more == ops;
    } else {
      var last := |more| - 1;
      NothingAfterCancel(ops, more[..last], path);
      assert (ops + more)[..|ops| + last] == ops + more[..last];
    }
  }

  /** The stabilizer object; the three parts of a timer's callback are separate methods because
      other calls may come between them. */
  class Stabilizer {
    var now: int
    var timers: seq<Timer>
    var registered: map<string, nat>
    var stable: seq<Announcement>

    ghost function Now(): State
      reads this
    {
      State(now, timers, registered, stable)
    }

    ghost predicate Valid()
      reads this
    {
      Inv(Now())
    }

    constructor ()
      ensures Valid() && Now() == START
    {
      now, timers, registered, stable := 0, [], map[], [];
    }

    method Touch(path: string)
      requires Valid()
      modifies this
      ensures Valid() && Now() == Step(old(Now()), Op.Touch(path))
    {
      StepKeepsInv(Now(), Op.Touch(path));
      if path in registered {
        timers := StopTimer(timers, registered[path]);
      }
      registered := registered[path := |timers|];
      timers := timers + [Timer(path, now, Armed)];
    }

    method Cancel(path: string)
      requires Valid()
      modifies this
      ensures Valid() && Now() == Step(old(Now()), Op.Cancel(path))
    {
      StepKeepsInv(Now(), Op.Cancel(path));
      if path in registered {
        timers := StopTimer(timers, registered[path]);
        registered := registered - {path};
      }
    }

    method BeginCallback(i: nat)
      requires Valid() && Due(Now(), i)
      modifies this
      ensures Valid() && Now() == Step(old(Now()), Fire(i))
    {
      StepKeepsInv(Now(), Fire(i));
      timers := In(timers, i, Firing);
    }

    method DeleteEntry(i: nat)
      requires Valid() && IsIn(Now(), i, Firing)
      modifies this
      ensures Valid() && Now() == Step(old(Now()), Lock(i))
    {
      StepKeepsInv(Now(), Lock(i));
      registered := registered - {timers[i].path};
      timers := In(timers, i, Sending);
    }

    method Announce(i: nat)
      requires Valid() && IsIn(Now(), i, Sending)
      modifies this
      ensures Valid() && Now() == Step(old(Now()), Send(i))
    {
      StepKeepsInv(Now(), Send(i));
      stable := stable + [Announcement(timers[i].path, i, now)];
      timers := In(timers, i, Done);
    }
  }
}
