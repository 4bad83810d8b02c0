/** The sliding-window login limiter (backend/ratelimit.go) and the check-then-record use
    that loginHandler (backend/auth_handlers.go) makes of it. Times are in nanoseconds. */
module LoginLimiting {
  import opened Options
  import opened Sequences

  type Ip = string
  type Time = int
  type RequestId = nat

  const MAX_FAILURES := 5
  const WINDOW: int := 15 * 60 * 1000000000

  function After(cutoff: Time): Time -> bool {
    t => t > cutoff
  }

  /** The failures of the window that ends at `now`. */
  function Recent(ts: seq<Time>, now: Time): seq<Time> {
    Filter(After(now - WINDOW), ts)
  }

  /** ... are those after `now` minus 15 minutes, each as often as it was recorded. */
  lemma RecentCounts(ts: seq<Time>, now: Time, t: Time)
    ensures multiset(Recent(ts, now))[t] == if t > now - 900_000_000_000 then multiset(ts)[t] else 0
  {
    FilterCounts(After(now - WINDOW), ts, t);
  }

  lemma RecentAppend(ts: seq<Time>, t: Time, now: Time)
    ensures Recent(ts + [t], now) == Recent(ts, now) + (if t > now - WINDOW then [t] else [])
  {
    FilterAppend(After(now - WINDOW), ts, t);
  }

  lemma NextRecent(ts: seq<Time>, i: nat, now: Time)
    requires i < |ts|
    ensures Recent(ts[..i + 1], now) == Recent(ts[..i], now) + (if ts[i] > now - WINDOW then [ts[i]] else [])
  {
    RecentAppend(ts[..i], ts[i], now);
    assert ts[..i] + [ts[i]] == ts[..i + 1];
  }

  /** A later window of an earlier one: pruning early loses nothing that counts later. */
  lemma {:induction false} RecentTwice(ts: seq<Time>, early: Time, late: Time)
    requires early <= late
    ensures Recent(Recent(ts, early), late) == Recent(ts, late)
  {
    if ts != [] {
      var last := |ts| - 1;
      RecentTwice(ts[..last], early, late);
      if ts[last] > early - WINDOW {
        RecentAppend(Recent(ts[..last], early), ts[last], late);
      } else {
        assert Recent(ts, early) == Recent(ts[..last], early) && Recent(ts, late) == Recent(ts[..last], late);
      }
    }
  }

  lemma {:induction false} RecentShrinks(ts: seq<Time>, early: Time, late: Time)
    requires early <= late
    ensures |Recent(ts, late)| <= |Recent(ts, early)|
  {
    RecentTwice(ts, early, late);
    FilterShortens(After(late - WINDOW), Recent(ts, early));
  }

  /** `kept` answers for `full` from time `from` on. */
  ghost predicate SameAnswers(kept: seq<Time>, full: seq<Time>, from: Time) {
    forall now :: now >= from ==> Recent(kept, now) == Recent(full, now)
  }

  lemma Pruned(kept: seq<Time>, full: seq<Time>, from: Time, now: Time)
    requires SameAnswers(kept, full, from) && from <= now
    ensures SameAnswers(Recent(kept, now), full, now)
  {
    forall later | later >= now ensures Recent(Recent(kept, now), later) == Recent(full, later) {
      RecentTwice(kept, now, later);
    }
  }

  lemma Appended(kept: seq<Time>, full: seq<Time>, from: Time, t: Time)
    requires SameAnswers(kept, full, from) && from <= t
    ensures SameAnswers(kept + [t], full + [t], t)
  {
    forall later | later >= t ensures Recent(kept + [t], later) == Recent(full + [t], later) {
      RecentAppend(kept, t, later);
      RecentAppend(full, t, later);
    }
  }

  function Of(m: map<Ip, seq<Time>>, ip: Ip): seq<Time> {
    if ip in m then m[ip] else []
  }

  lemma PrunedOne(before: map<Ip, seq<Time>>, ip: Ip, other: Ip, full: seq<Time>, from: Time, now: Time)
    requires SameAnswers(Of(before, other), full, from) && from <= now
    ensures SameAnswers(Of(before[ip := Recent(Of(before, ip), now)], other), full, now)
  {
    Pruned(Of(before, other), full, from, now);
  }

  class LoginLimiter {
    var failures: map<Ip, seq<Time>>
    // every failure ever recorded, and the time of the last call
    ghost var all: map<Ip, seq<Time>>
    ghost var clock: Time

    /** The pruned lists answer every question about the present and the future as the
        full history would. */
    ghost predicate Valid() reads this {
      forall ip :: SameAnswers(Of(failures, ip), Of(all, ip), clock)
    }

    constructor (now: Time)
      ensures Valid() && all == map[] && clock == now
    {
      failures, all, clock := map[], map[], now;
    }

    /** recentFailuresLocked: keeps the failures after the cutoff, and stores them. */
    method RecentFailures(ip: Ip, now: Time) returns (kept: seq<Time>)
      requires Valid() && now >= clock
      modifies this
      ensures Valid() && all == old(all) && clock == now
      ensures kept == Recent(if ip in all then all[ip] else [], now) && failures == old(failures)[ip := kept]
    {
      assert SameAnswers(Of(failures, ip), Of(all, ip), clock);
      var cutoff := now - WINDOW;
      kept := [];
      var ts := Of(failures, ip);
      for i := 0 to |ts|
        invariant unchanged(this) && kept == Recent(ts[..i], now)
      {
        NextRecent(ts, i, now);
        if ts[i] > cutoff {
          kept := kept + [ts[i]];
        }
      }
      assert ts[..|ts|] == ts;
      ghost var before, was := failures, clock;
      failures := failures[ip := kept];
      clock := now;
      forall other ensures SameAnswers(Of(failures, other), Of(all, other), clock) {
        assert SameAnswers(Of(before, other), Of(all, other), was);
        PrunedOne(before, ip, other, Of(all, other), was, now);
      }
    }

    /** Allow answers as if nothing had ever been pruned. */
    method Allow(ip: Ip, now: Time) returns (ok: bool)
      requires Valid() && now >= clock
      modifies this
      ensures Valid() && all == old(all) && clock == now
      ensures ok <==> |Recent(if ip in all then all[ip] else [], now)| < 5
    {
      var recent := RecentFailures(ip, now);
      ok := |recent| < MAX_FAILURES;
    }

    /** RecordFailure reads the clock twice, for the pruning and for the new entry. */
    method RecordFailure(ip: Ip, now: Time, then_: Time)
      requires Valid() && clock <= now <= then_
      modifies this
      ensures Valid() && clock == then_
      ensures all == old(all)[ip := (if ip in old(all) then old(all)[ip] else []) + [then_]]
    {
      var recent := RecentFailures(ip, now);
      ghost var before := all;
      assert SameAnswers(recent, Of(before, ip), now);
      Appended(recent, Of(before, ip), now, then_);
      ghost var pruned := failures;
      failures := failures[ip := recent + [then_]];
      all := all[ip := Of(all, ip) + [then_]];
      clock := then_;
      forall other ensures SameAnswers(Of(failures, other), Of(all, other), clock) {
        assert SameAnswers(Of(pruned, other), Of(before, other), now);
      }
    }
  }

  // ----- Overlapping requests -----

  /** Requests of one address that passed Allow and have neither recorded a failure nor finished. */
  datatype State = State(clock: Time, recorded: seq<Time>, open: set<RequestId>)

  /** The limiter's calls, each under its mutex, for one address. */
  datatype Action = Enter(r: RequestId, now: Time) | Refuse(now: Time) | Fail(r: RequestId, now: Time) | Finish(r: RequestId)

  predicate Enabled(s: State, a: Action) {
    match a
    case Enter(r, now) => now >= s.clock && r !in s.open && |Recent(s.recorded, now)| < MAX_FAILURES
    case Refuse(now) => now >= s.clock && |Recent(s.recorded, now)| >= MAX_FAILURES
    case Fail(r, now) => now >= s.clock && r in s.open
    case Finish(r) => r in s.open
  }

  function Apply(s: State, a: Action): State {
    match a
    case Enter(r, now) => State(now, s.recorded, s.open + {r})
    case Refuse(now) => s.(clock := now)
    case Fail(r, now) => State(now, s.recorded + [now], s.open - {r})
    case Finish(r) => s.(open := s.open - {r})
  }

  ghost predicate Run(ss: seq<State>, acts: seq<Action>) {
    && |ss| == |acts| + 1 && ss[0].recorded == [] && ss[0].open == {}
    && forall i :: 0 <= i < |acts| ==> Enabled(ss[i], acts[i]) && ss[i + 1] == Apply(ss[i], acts[i])
  }

  // The window of the bound, 15 minutes in nanoseconds.
  function Last(end: Time): Time -> bool {
    t => end - 900_000_000_000 < t <= end
  }

  /** The failures recorded after `end - WINDOW` and not after `end`. */
  function InWindow(ts: seq<Time>, end: Time): seq<Time> {
    Filter(Last(end), ts)
  }

  lemma {:induction false} WindowIsRecent(ts: seq<Time>, end: Time)
    requires forall i :: 0 <= i < |ts| ==> ts[i] <= end
    ensures InWindow(ts, end) == Recent(ts, end)
  {
    if ts != [] {
      WindowIsRecent(ts[..|ts| - 1], end);
    }
  }

  ghost predicate Bounded(s: State, k: nat) {
    && (forall i :: 0 <= i < |s.recorded| ==> s.recorded[i] <= s.clock)
    && |Recent(s.recorded, s.clock)| + |s.open| <= MAX_FAILURES - 1 + k
    && (forall end :: |InWindow(s.recorded, end)| <= MAX_FAILURES - 1 + k)
  }

  lemma BoundedStep(s: State, a: Action, k: nat)
    requires Bounded(s, k) && Enabled(s, a) && |Apply(s, a).open| <= k
    ensures Bounded(Apply(s, a), k)
  {
    var s' := Apply(s, a);
    RecentShrinks(s.recorded, s.clock, s'.clock);
    if a.Fail? {
      RecentAppend(s.recorded, a.now, a.now);
      forall end ensures |InWindow(s'.recorded, end)| <= MAX_FAILURES - 1 + k {
        FilterAppend(Last(end), s.recorded, a.now);
        if a.now <= end {
          WindowIsRecent(s'.recorded, end);
          RecentShrinks(s'.recorded, a.now, end);
        } else {
          assert InWindow(s'.recorded, end) == InWindow(s.recorded, end);
        }
      }
    }
  }

  lemma {:induction false} RunBounded(ss: seq<State>, acts: seq<Action>, k: nat, i: nat)
    requires Run(ss, acts) && i < |ss| && forall j :: 0 <= j < |ss| ==> |ss[j].open| <= k
    ensures Bounded(ss[i], k)
  {
    if i > 0 {
      RunBounded(ss, acts, k, i - 1);
      assert ss[i] == Apply(ss[i - 1], acts[i - 1]) && |ss[i].open| <= k;
      BoundedStep(ss[i - 1], acts[i - 1], k);
    }
  }

  /** If never more than `k` requests of an address are between Allow and RecordFailure, no
      15-minute window holds more than 4 + k of its recorded failures; 5 when they come one
      at a time. */
  lemma FailuresAreBounded(ss: seq<State>, acts: seq<Action>, k: nat, i: nat, end: Time)
    requires Run(ss, acts) && i < |ss| && forall j :: 0 <= j < |ss| ==> |ss[j].open| <= k
    ensures |InWindow(ss[i].recorded, end)| <= 4 + k
  {
    RunBounded(ss, acts, k, i);
  }

  // The bound is reached: four failures one at a time, then k requests at once.

  function Zeros(n: nat): seq<Time> {
    if n == 0 then [] else Zeros(n - 1) + [0]
  }

  lemma {:induction false} ZerosAreRecent(n: nat)
    ensures |Zeros(n)| == n && Recent(Zeros(n), 0) == Zeros(n) && InWindow(Zeros(n), 0) == Zeros(n)
  {
    if n > 0 {
      ZerosAreRecent(n - 1);
      RecentAppend(Zeros(n - 1), 0, 0);
      assert (Zeros(n - 1) + [0])[..|Zeros(n - 1)|] == Zeros(n - 1);
    }
  }

  lemma Extend(ss: seq<State>, acts: seq<Action>, k: nat, a: Action) returns (ss': seq<State>, acts': seq<Action>)
    requires Run(ss, acts) && (forall j :: 0 <= j < |ss| ==> |ss[j].open| <= k)
    requires Enabled(ss[|acts|], a) && |Apply(ss[|acts|], a).open| <= k
    ensures Run(ss', acts') && (forall j :: 0 <= j < |ss'| ==> |ss'[j].open| <= k)
    ensures ss'[|acts'|] == Apply(ss[|acts|], a)
  {
    ss', acts' := ss + [Apply(ss[|acts|], a)], acts + [a];
  }

  function Below(n: nat): (s: set<RequestId>)
    ensures forall r: RequestId :: r in s <==> r < n
  {
    if n == 0 then {} else Below(n - 1) + {n - 1}
  }

  lemma {:induction false} BelowNext(n: nat)
    ensures Below(n + 1) == Below(n) + {n} && Below(n + 1) - {n} == Below(n) && |Below(n)| == n
  {
    if n > 0 {
      BelowNext(n - 1);
    }
  }

  /** `recorded` failures at time 0 while `open` requests are in flight. */
  function Reached(recorded: nat, open: nat): State {
    State(0, Zeros(recorded), Below(open))
  }

  lemma EnterOne(recorded: nat, open: nat)
    requires recorded <= 4
    ensures Enabled(Reached(recorded, open), Enter(open, 0))
    ensures Apply(Reached(recorded, open), Enter(open, 0)) == Reached(recorded, open + 1)
    ensures |Reached(recorded, open + 1).open| == open + 1
  {
    ZerosAreRecent(recorded);
    BelowNext(open);
    BelowNext(open + 1);
  }

  lemma FailOne(recorded: nat, open: nat)
    ensures Enabled(Reached(recorded, open + 1), Fail(open, 0))
    ensures Apply(Reached(recorded, open + 1), Fail(open, 0)) == Reached(recorded + 1, open)
    ensures |Reached(recorded + 1, open).open| == open
  {
    BelowNext(open);
  }

  /** A run with never more than `k` requests in flight that ends at Reached(recorded, open). */
  ghost predicate Reaches(ss: seq<State>, acts: seq<Action>, k: nat, recorded: nat, open: nat) {
    && Run(ss, acts) && (forall j :: 0 <= j < |ss| ==> |ss[j].open| <= k)
    && ss[|acts|] == Reached(recorded, open)
  }

  lemma ReachEnter(ss: seq<State>, acts: seq<Action>, k: nat, recorded: nat, open: nat)
    returns (ss': seq<State>, acts': seq<Action>)
    requires Reaches(ss, acts, k, recorded, open) && recorded <= 4 && open < k
    ensures Reaches(ss', acts', k, recorded, open + 1)
  {
    EnterOne(recorded, open);
    ss', acts' := Extend(ss, acts, k, Enter(open, 0));
  }

  lemma ReachFail(ss: seq<State>, acts: seq<Action>, k: nat, recorded: nat, open: nat)
    returns (ss': seq<State>, acts': seq<Action>)
    requires Reaches(ss, acts, k, recorded, open + 1) && open <= k
    ensures Reaches(ss', acts', k, recorded + 1, open)
  {
    FailOne(recorded, open);
    ss', acts' := Extend(ss, acts, k, Fail(open, 0));
  }

  lemma {:induction false} Reach(k: nat, recorded: nat, open: nat) returns (ss: seq<State>, acts: seq<Action>)
    requires k > 0 && open <= k && recorded + open <= 4 + k
    ensures Reaches(ss, acts, k, recorded, open)
    decreases recorded, open
  {
    if recorded == 0 && open == 0 {
      ss, acts := [Reached(0, 0)], [];
    } else if open > 0 && recorded <= 4 {
      ss, acts := Reach(k, recorded, open - 1);
      ss, acts := ReachEnter(ss, acts, k, recorded, open - 1);
    } else {
      ss, acts := Reach(k, recorded - 1, open + 1);
      ss, acts := ReachFail(ss, acts, k, recorded - 1, open);
    }
  }

  lemma BoundIsTight(k: nat) returns (ss: seq<State>, acts: seq<Action>)
    requires k > 0
    ensures Run(ss, acts) && (forall j :: 0 <= j < |ss| ==> |ss[j].open| <= k)
    ensures |InWindow(ss[|acts|].recorded, 0)| == 4 + k
  {
    ss, acts := Reach(k, 4 + k, 0);
    ZerosAreRecent(4 + k);
  }

  // ----- The handler's calls of the limiter -----

  /** The state after the given calls about one address, if each was enabled. */
  ghost function Exec(start: Time, acts: seq<Action>): Option<State>
    decreases |acts|
  {
    if acts == [] then Some(State(start, [], {}))
    else
      var k := |acts| - 1;
      match Exec(start, acts[..k])
      case None => None
      case Some(s) => if Enabled(s, acts[k]) then Some(Apply(s, acts[k])) else None
  }

  lemma {:induction false} ExecIsRun(start: Time, acts: seq<Action>) returns (ss: seq<State>)
    requires Exec(start, acts).Some?
    ensures Run(ss, acts) && forall i :: 0 <= i <= |acts| ==> Exec(start, acts[..i]) == Some(ss[i])
    decreases |acts|
  {
    if acts == [] {
      ss := [State(start, [], {})];
      assert acts[..0] == acts;
    } else {
      var k := |acts| - 1;
      var before := ExecIsRun(start, acts[..k]);
      ss := before + [Exec(start, acts).value];
      forall i | 0 <= i <= |acts| ensures Exec(start, acts[..i]) == Some(ss[i]) {
        assert if i <= k then acts[..k][..i] == acts[..i] && ss[i] == before[i] else acts[..i] == acts;
      }
      assert acts[..k][..k] == acts[..k];
      forall i | 0 <= i < |acts| ensures Enabled(ss[i], acts[i]) && ss[i + 1] == Apply(ss[i], acts[i]) {
        assert ss[i] == before[i];
        assert i < k ==> acts[..k][i] == acts[i] && ss[i + 1] == before[i + 1];
      }
    }
  }

  lemma ExecNext(start: Time, acts: seq<Action>, a: Action)
    requires Exec(start, acts).Some? && Enabled(Exec(start, acts).value, a)
    ensures Exec(start, acts + [a]) == Some(Apply(Exec(start, acts).value, a))
  {
    assert (acts + [a])[..|acts|] == acts;
  }

  /** What loginHandler answers. */
  datatype Response = TooMany | BadRequest | Unauthorized | Created

  /** loginHandler and its limiter. The calls about each address are a run of the steps above, so
      what is proved of runs holds of every address. */
  class LoginHandler {
    const limiter: LoginLimiter
    ghost const start: Time
    ghost var calls: map<Ip, seq<Action>>

    ghost function CallsOf(ip: Ip): seq<Action>
      reads this
    {
      if ip in calls then calls[ip] else []
    }

    /** The history of an address is what its calls recorded. */
    ghost predicate Follows(ip: Ip)
      reads this, limiter
    {
      match Exec(start, CallsOf(ip))
      case None => false
      case Some(s) => s.recorded == (if ip in limiter.all then limiter.all[ip] else []) && s.clock <= limiter.clock
    }

    ghost predicate Valid()
      reads this, limiter
    {
      limiter.Valid() && forall ip :: Follows(ip)
    }

    /** The requests of `ip` that have passed Allow and not ended. */
    ghost function Open(ip: Ip): set<RequestId>
      requires Valid()
      reads this, limiter
    {
      assert Follows(ip);
      Exec(start, CallsOf(ip)).value.open
    }

    constructor (now: Time)
      ensures Valid() && fresh(limiter) && limiter.all == map[] && limiter.clock == now && calls == map[]
    {
      limiter := new LoginLimiter(now);
      start, calls := now, map[];
    }

    /** A request comes in: Allow. */
    method Begin(ip: Ip, ghost r: RequestId, now: Time) returns (ok: bool)
      requires Valid() && now >= limiter.clock && r !in Open(ip)
      modifies this, limiter
      ensures Valid() && limiter.clock == now && limiter.all == old(limiter.all)
      ensures calls == old(calls)[ip := old(CallsOf(ip)) + [if ok then Enter(r, now) else Refuse(now)]]
      ensures ok <==> |Recent(if ip in limiter.all then limiter.all[ip] else [], now)| < 5
      ensures Open(ip) == old(Open(ip)) + if ok then {r} else {}
    {
      assert Follows(ip);
      ok := limiter.Allow(ip, now);
      ghost var a := if ok then Enter(r, now) else Refuse(now);
      ExecNext(start, CallsOf(ip), a);
      forall other | other != ip ensures Follows(other) {
        assert old(Follows(other));
      }
      Call(ip, a);
    }

    /** It ends with an unknown user or a wrong password: RecordFailure. */
    method Fail(ip: Ip, ghost r: RequestId, now: Time, then_: Time)
      requires Valid() && limiter.clock <= now <= then_ && r in Open(ip)
      modifies this, limiter
      ensures Valid() && limiter.clock == then_
      ensures limiter.all == old(limiter.all)[ip := (if ip in old(limiter.all) then old(limiter.all)[ip] else []) + [then_]]
      ensures calls == old(calls)[ip := old(CallsOf(ip)) + [Action.Fail(r, then_)]]
      ensures Open(ip) == old(Open(ip)) - {r}
    {
      assert Follows(ip);
      ExecNext(start, CallsOf(ip), Action.Fail(r, then_));
      limiter.RecordFailure(ip, now, then_);
      forall other | other != ip ensures Follows(other) {
        assert old(Follows(other));
      }
      Call(ip, Action.Fail(r, then_));
    }

    /** It ends otherwise. */
    ghost method Done(ip: Ip, r: RequestId)
      requires Valid() && r in Open(ip)
      modifies this
      ensures Valid() && calls == old(calls)[ip := old(CallsOf(ip)) + [Finish(r)]]
      ensures Open(ip) == old(Open(ip)) - {r}
    {
      assert Follows(ip);
      ExecNext(start, CallsOf(ip), Finish(r));
      forall other | other != ip ensures Follows(other) {
        assert old(Follows(other));
      }
      Call(ip, Finish(r));
    }

    ghost method Call(ip: Ip, a: Action)
      requires limiter.Valid() && (forall other :: other != ip ==> Follows(other))
      requires var after := Exec(start, CallsOf(ip) + [a]);
        after.Some? && after.value.clock <= limiter.clock
        && after.value.recorded == if ip in limiter.all then limiter.all[ip] else []
      modifies this
      ensures Valid() && calls == old(calls)[ip := old(CallsOf(ip)) + [a]]
    {
      ghost var before := calls;
      calls := calls[ip := CallsOf(ip) + [a]];
      forall other ensures Follows(other) {
        if other != ip {
          assert old(Follows(other));
        }
      }
    }

    /** Whatever calls have been made: if never more than `k` requests of an address were open at
        once, no 15 minutes hold more than 4 + k of its failures. */
    lemma HistoryIsBounded(ip: Ip, k: nat, end: Time)
      requires Valid()
      requires forall i :: 0 <= i <= |CallsOf(ip)| && Exec(start, CallsOf(ip)[..i]).Some? ==>
        |Exec(start, CallsOf(ip)[..i]).value.open| <= k
      ensures |InWindow(if ip in limiter.all then limiter.all[ip] else [], end)| <= 4 + k
    {
      assert Follows(ip);
      var acts := CallsOf(ip);
      var ss := ExecIsRun(start, acts);
      assert acts[..|acts|] == acts;
      forall j | 0 <= j < |ss| ensures |ss[j].open| <= k {
        assert Exec(start, acts[..j]) == Some(ss[j]);
      }
      FailuresAreBounded(ss, acts, k, |acts|, end);
    }

    /** A whole request, with nothing else in between: the clock readings are those of Allow and of
        RecordFailure. */
    method Login(ip: Ip, ghost r: RequestId, t1: Time, bodyOk: bool, userKnown: bool, passwordMatches: bool, t2: Time, t3: Time)
      returns (response: Response)
      requires Valid() && limiter.clock <= t1 <= t2 <= t3 && r !in Open(ip)
      modifies this, limiter
      ensures Valid() && (limiter.clock == t1 || limiter.clock == t3)
      ensures var full := if ip in old(limiter.all) then old(limiter.all)[ip] else [];
        && (response.TooMany? <==> |Recent(full, t1)| >= 5)
        && (response.Unauthorized? <==> |Recent(full, t1)| < 5 && bodyOk && !(userKnown && passwordMatches))
        && (response.BadRequest? <==> |Recent(full, t1)| < 5 && !bodyOk)
        && (response.Unauthorized? ==> limiter.all == old(limiter.all)[ip := full + [t3]])
        && (!response.Unauthorized? ==> limiter.all == old(limiter.all))
    {
      var ok := Begin(ip, r, t1);
      if !ok {
        return TooMany;
      }
      if !bodyOk {
        Done(ip, r);
        return BadRequest;
      }
      if !userKnown || !passwordMatches {
        Fail(ip, r, t2, t3);
        return Unauthorized;
      }
      Done(ip, r);
      return Created;
    }
  }
}
