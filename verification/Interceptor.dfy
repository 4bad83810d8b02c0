/** The daemon's procedures in the form of the source, each running on one thread `t` while
    an arbitrary scheduler lets the other threads, the backend and the admin act between
    its calls. Every effect is a step of the custody system, so what is proved of its
    runs holds of these procedures. */
module Interceptor {
  import opened Options
  import opened Verdicts
  import opened Sequences
  import opened FileMove
  import opened Custody
  import opened CustodyInvariant
  import opened CustodyTheorems

  /** What the rest of the world does at a point where this thread can be preempted. */
  type Others = State -> seq<Action>

  /** The outcome of each fallible call of one procedure; `moves` are the phases moveFile goes through. */
  datatype Luck = Luck(
    sent: bool, replied: bool, moves: seq<Phase>, opens: bool, completes: bool, metaRemoved: bool, dirRemoved: bool)

  /** The state after the given actions from an empty system, if each was enabled. */
  ghost function Exec(acts: seq<Action>): Option<State>
    decreases |acts|
  {
    if acts == [] then Some(EMPTY)
    else
      var k := |acts| - 1;
      match Exec(acts[..k])
      case None => None
      case Some(s) => if Enabled(s, acts[k]) then Some(Apply(s, acts[k])) else None
  }

  /** An executed script is a run, so the theorems about runs apply to it. */
  lemma {:induction false} ExecIsRun(acts: seq<Action>) returns (ss: seq<State>)
    requires Exec(acts).Some?
    ensures Run(ss, acts) && ss[|acts|] == Exec(acts).value
    decreases |acts|
  {
    if acts == [] {
      ss := [EMPTY];
    } else {
      var k := |acts| - 1;
      var before := ExecIsRun(acts[..k]);
      ss := before + [Exec(acts).value];
      forall i | 0 <= i < |acts| ensures Enabled(ss[i], acts[i]) && ss[i + 1] == Apply(ss[i], acts[i]) {
        assert ss[i] == before[i];
        assert i < k ==> acts[..k][i] == acts[i] && ss[i + 1] == before[i + 1];
      }
    }
  }

  function Files(s: State, e: EntryId): Option<Entry> {
    if e in s.disk then Some(s.disk[e]) else None
  }

  function PayloadOf(s: State, e: EntryId): Payload {
    if e in s.disk then s.disk[e].payload else NoPayload
  }

  /** What stays as it is for a thread and the entry it owns while others act. */
  ghost predicate Steady(s: State, s': State, t: Tid) {
    && s'.Pc(t) == s.Pc(t)
    && TableGrows(s.table, s'.table) && Onward(s, s', t)
    && (!s.Pc(t).Idle? ==> SameEntry(s, s', s.Pc(t).entry))
  }

  ghost predicate Keeps<K(!new), V>(m: map<K, V>, m': map<K, V>) {
    forall k :: k in m ==> k in m' && m'[k] == m[k]
  }

  /** Entries that wait for thread `t`, or for nobody: held ones for the poller, pending ones for
      the sweep while it lasts, and blocked and removed ones. */
  ghost predicate Waits(s: State, e: EntryId, t: Tid) {
    match Files(s, e)
    case None => e in s.hist.origin
    case Some(entry) =>
      entry.metaFile.Readable? &&
      match entry.metaFile.meta.state
      case Held => t == POLLER
      case PendingSubmit => t == SWEEPER && s.daemon.up && s.daemon.sweeping
      case Blocked => true
  }

  /** The daemon stays up, only the sweep goes on with the sweep, and the past stays as it was. */
  ghost predicate Onward(s: State, s': State, t: Tid) {
    && (s.daemon.up ==> s'.daemon.up && (!s.daemon.sweeping ==> !s'.daemon.sweeping))
    && (s.daemon.up && t == SWEEPER ==> s'.daemon.sweeping == s.daemon.sweeping && s'.daemon.todo == s.daemon.todo)
    && Keeps(s.hist.origin, s'.hist.origin) && Keeps(s.hist.captured, s'.hist.captured)
    && s.hist.answered <= s'.hist.answered && s.hist.delivered <= s'.hist.delivered
  }

  ghost predicate SameEntry(s: State, s': State, e: EntryId) {
    Files(s', e) == Files(s, e) && (e in s'.hist.delivered <==> e in s.hist.delivered)
  }

  /** The poller's or the sweep's step that takes on an entry; the sweep's end leaves it no more to take. */
  predicate Picks(a: Action, t: Tid) {
    (t == POLLER && a.SeeHeld?) || (t == SWEEPER && (a.SweepTake? || a.SweepEnd?))
  }

  /** The history has grown by steps among which thread `t` took on nothing. */
  ghost predicate On(before: seq<Action>, after: seq<Action>, t: Tid) {
    before <= after && forall k :: |before| <= k < |after| ==> !after[k].Crash? && !Picks(after[k], t)
  }

  /** ... or nothing but entry `e`. */
  ghost predicate OnWith(before: seq<Action>, after: seq<Action>, t: Tid, e: EntryId) {
    before <= after && forall k :: |before| <= k < |after| ==>
      !after[k].Crash? && (Picks(after[k], t) ==> (after[k].SeeHeld? || after[k].SweepTake?) && after[k].entry == e)
  }

  // ----- What a procedure achieves -----

  ghost predicate Did(steps: seq<Action>, from: nat, a: Action) {
    exists k :: from <= k < |steps| && steps[k] == a
  }

  ghost predicate HandledSince(steps: seq<Action>, from: nat, q: RequestId) {
    exists k :: from <= k < |steps| && steps[k].Handle? && steps[k].request == q
  }

  /** The answer to request `q` was `d`: release exactly for Normal, block exactly for Compromised. */
  ghost predicate AnsweredSince(steps: seq<Action>, from: nat, q: RequestId, d: Decision) {
    exists k :: from <= k < |steps| && Answers(steps[k], q, d)
  }

  predicate Answers(a: Action, q: RequestId, d: Decision) {
    a.Handle? && a.request == q && (d.Release? <==> a.verdict.Normal?) && (d.Block? <==> a.verdict.Compromised?)
  }

  /** An answer to `q` is there exactly if the backend has come to one since step `from`. */
  ghost predicate Heard(s: State, steps: seq<Action>, from: nat, q: RequestId) {
    && (q in s.net.replies <==> HandledSince(steps, from, q))
    && (q in s.net.replies ==> AnsweredSince(steps, from, q, s.net.replies[q].decision))
  }

  lemma HeardStep(s: State, a: Action, steps: seq<Action>, from: nat, t: Tid, q: RequestId)
    requires Inv(s) && Enabled(s, a) && !a.Crash? && Actor(a) != Some(t) && Awaits(s.Pc(t), q)
    requires from <= |steps| && Heard(s, steps, from, q)
    ensures Heard(Apply(s, a), steps + [a], from, q)
  {
    AnswerComes(s, a, t, q);
    assert forall k :: from <= k < |steps| ==> (steps + [a])[k] == steps[k];
    assert (steps + [a])[|steps|] == a;
  }

  /** While a thread waits, the answer it waits for is given by the backend and taken by nobody else. */
  lemma AnswerComes(s: State, a: Action, t: Tid, q: RequestId)
    requires Inv(s) && Enabled(s, a) && !a.Crash? && Actor(a) != Some(t) && Awaits(s.Pc(t), q)
    ensures q in Apply(s, a).net.replies <==> q in s.net.replies || (a.Handle? && a.request == q)
    ensures a.Handle? && a.request == q ==> q !in s.net.replies && Answers(a, q, Apply(s, a).net.replies[q].decision)
    ensures q in s.net.replies ==> Apply(s, a).net.replies[q] == s.net.replies[q]
  {
    if a.Receive? {
      if s.Pc(a.t).request == q {
        OneWaits(s, q, t, a.t);
      }
    } else if !a.Handle? {
      RepliesSame(s, a);
    }
  }

  lemma RepliesSame(s: State, a: Action)
    requires Enabled(s, a) && !a.Handle? && !a.Receive?
    ensures Apply(s, a).net.replies == s.net.replies
  {
  }

  lemma HeardLater(heard: seq<Action>, after: seq<Action>, from: nat, q: RequestId)
    requires from <= |heard| && |after| == |heard| + 1 && heard <= after && !after[|heard|].Handle?
    ensures HandledSince(after, from, q) <==> HandledSince(heard, from, q)
    ensures forall d :: AnsweredSince(heard, from, q, d) ==> AnsweredSince(after, from, q, d)
  {
  }

  lemma HeardBefore(before: seq<Action>, sent: seq<Action>, after: seq<Action>, q: RequestId)
    requires |sent| == |before| + 1 && before <= sent <= after && !sent[|before|].Handle?
    ensures HandledSince(after, |before|, q) <==> HandledSince(after, |sent|, q)
    ensures forall d :: AnsweredSince(after, |sent|, q, d) ==> AnsweredSince(after, |before|, q, d)
  {
  }

  lemma AskedLater(asked: seq<Action>, after: seq<Action>, from: nat, e: EntryId, q: RequestId, d: Decision, t: Tid)
    requires from <= |asked| && asked <= after
    ensures Did(asked, from, Send(t, e, q)) ==> Did(after, from, Send(t, e, q))
    ensures HandledSince(asked, from, q) ==> HandledSince(after, from, q)
    ensures AnsweredSince(asked, from, q, d) ==> AnsweredSince(after, from, q, d)
  {
  }

  predicate IsHeldMeta(m: MetaFile) {
    m.Readable? && m.meta.state.Held?
  }

  /** `status` is what row `r` said at some moment between the two tables. */
  ghost predicate StatusRead(tb: Table, tb': Table, r: RowId, status: Status) {
    && r in tb.rows && r in tb'.rows
    && (!tb.rows[r].status.Pending? ==> status == tb.rows[r].status)
    && (!status.Pending? || tb'.rows[r].status.Pending? ==> status == tb'.rows[r].status)
  }

  /** What a poll with answer `status` makes of a held entry. */
  ghost predicate PollEffect(s: State, s': State, e: EntryId, luck: Luck, status: Option<Status>) {
    match status
    case None => SameEntry(s, s', e)
    case Some(Pending) => SameEntry(s, s', e)
    case Some(Approved) => ReleaseResult(Files(s, e), s', e, luck)
    case Some(Rejected) =>
      && PayloadOf(s', e) == PayloadOf(s, e)
      && (luck.opens && luck.completes && s.MetaOf(e).Readable? ==>
            s'.MetaOf(e) == Readable(s.MetaOf(e).meta.(state := Blocked)))
  }

  lemma ReadBetween(tb: Table, mid: Table, tb': Table, r: RowId)
    requires TableGrows(tb, mid) && TableGrows(mid, tb') && r in tb.rows
    ensures r in mid.rows && StatusRead(tb, tb', r, mid.rows[r].status)
  {
  }

  /** Between two moments of one history rows are only added and decided. */
  lemma {:induction false} RowsOnly(before: seq<Action>, after: seq<Action>)
    requires before <= after && Exec(after).Some?
    ensures Exec(before).Some? && TableGrows(Exec(before).value.table, Exec(after).value.table)
    decreases |after|
  {
    if |before| == |after| {
      assert before == after;
    } else {
      var k := |after| - 1;
      RowsOnly(before, after[..k]);
      var ss := ExecIsRun(after[..k]);
      RunInv(ss, after[..k], k);
      TableStep(Exec(after[..k]).value, after[k]);
    }
  }

  /** The meta of a file just captured from `path`. */
  function FirstMeta(path: string): Meta {
    Meta(path, Base(path), PendingSubmit, 0)
  }

  /** The move ends at the destination. */
  ghost predicate Arrives(moves: seq<Phase>) {
    Before(moves, |moves|).AtDest?
  }

  /** A release of an entry with files `f`: they are as they were, or the payload has left. When
      `luck.moves` are phases moveFile can go through and there is a payload, it has left
      exactly if they end at the destination. */
  ghost predicate ReleaseResult(f: Option<Entry>, s: State, e: EntryId, luck: Luck) {
    && (Files(s, e) == f || (e in s.hist.delivered && PayloadOf(s, e).NoPayload?))
    && (Chain(luck.moves) && f.Some? && !f.value.payload.NoPayload? ==>
          if Arrives(luck.moves)
          then e in s.hist.delivered && PayloadOf(s, e).NoPayload? && (luck.metaRemoved && luck.dirRemoved ==> e !in s.disk)
          else Files(s, e) == f)
  }

  /** What has become of an entry with files `f` and pending meta `m` after the answer `decision`. */
  ghost predicate Acted(f: Option<Entry>, s: State, e: EntryId, m: Meta, decision: Option<Decision>, luck: Luck) {
    match decision
    case None => Files(s, e) == f
    case Some(Release) => e in s.hist.answered && ReleaseResult(f, s, e, luck)
    case Some(Block) =>
      && f.Some? && PayloadOf(s, e) == f.value.payload
      && (luck.opens && luck.completes ==> s.MetaOf(e) == Readable(m.(state := Blocked)))
    case Some(Hold) =>
      && f.Some? && PayloadOf(s, e) == f.value.payload
      && (luck.opens && luck.completes ==>
        exists r :: s.MetaOf(e) == Readable(m.(state := Held, row := r)) && RowOf(s.table, r, e))
  }

  /** Since step `from`, thread `t` has sent the payload of `e`, if there was one and it could, and
      `decision` is the backend's answer, if one came and was not lost. */
  ghost predicate Asked(steps: seq<Action>, from: nat, t: Tid, e: EntryId, q: RequestId,
                        payload: Payload, decision: Option<Decision>, luck: Luck) {
    && (luck.sent && !payload.NoPayload? ==> Did(steps, from, Send(t, e, q)))
    && (decision.Some? <==> luck.sent && !payload.NoPayload? && luck.replied && HandledSince(steps, from, q))
    && (decision.Some? ==> AnsweredSince(steps, from, q, decision.value))
  }

  // ----- The moves of the step system are those of moveFile -----

  /** Phases a move can go through, one after the other, from its start. */
  ghost predicate Chain(moves: seq<Phase>) {
    forall k :: 0 <= k < |moves| ==> PhaseStep(Before(moves, k), moves[k])
  }

  /** The phase that `moves[k]` follows. */
  function Before(moves: seq<Phase>, k: nat): Phase
    requires k <= |moves|
  {
    if k == 0 then AtSource else moves[k - 1]
  }

  /** The phases that thread `t` has taken its releasing moves to, over a whole history. */
  ghost function MovesBy(acts: seq<Action>, t: Tid): seq<Phase> {
    FlatMap(MoveOf(t), acts)
  }

  function MoveOf(t: Tid): Action -> seq<Phase> {
    (a: Action) => if a.ReleaseMove? && a.t == t then [a.phase] else []
  }

  lemma MovesAppend(acts: seq<Action>, a: Action, t: Tid)
    ensures MovesBy(acts + [a], t) == MovesBy(acts, t) + MoveOf(t)(a)
  {
    assert (acts + [a])[..|acts|] == acts;
  }

  predicate CanMove(s: State, t: Tid, ph: Phase)
    requires s.Pc(t).Releasing?
  {
    PayloadOf(s, s.Pc(t).entry) != NoPayload && PhaseStep(s.Pc(t).phase, ph)
  }

  /** The releasing move of thread `t` has come to phase `ph`, if it could. */
  ghost predicate MovedOn(s: State, s': State, t: Tid, ph: Phase)
    requires s.Pc(t).Releasing?
  {
    var pc := s.Pc(t);
    && s'.Pc(t) == Releasing(pc.entry, pc.meta, if CanMove(s, t, ph) then ph else pc.phase)
    && (!s'.Pc(t).phase.AtDest? ==> Files(s', pc.entry) == Files(s, pc.entry))
  }

  lemma TakenOne(before: seq<Phase>, now: seq<Phase>, moves: seq<Phase>, i: nat)
    requires i < |moves| && now == before + moves[..i]
    ensures now + [moves[i]] == before + moves[..i + 1]
  {
  }

  /** What the step system sees of the file `p` of a disk, when the file moved has bytes `b`. */
  ghost predicate Abstracts(d: Disk, p: string, b: Bytes, seen: Payload) {
    match seen
    case NoPayload => p !in d.names
    case PartOf => p in d.names
    case Whole(c) => c == b && HasBytes(d, p, b)
  }

  /** moveFile, as FileMove has it, goes through such phases, and each of its snapshots shows
      the payload as the step system has it in that phase: at the destination of a capture
      into a fresh directory, and at the source of a release. */
  lemma SnapshotsAbstract(log: seq<Disk>, at: nat, phases: seq<Phase>, src: string, dst: string, b: Bytes, k: nat)
    requires FileMove.History(log, at, phases, src, dst, b) && k < |phases|
    ensures Chain(phases[1..])
    ensures dst !in log[at].names ==> Abstracts(log[at + k], dst, b, PayloadIn(phases[k], b))
    ensures Abstracts(log[at + k], src, b, if phases[k].AtDest? then NoPayload else Whole(b))
  {
    assert Fits(phases[k], log[at], log[at + k], src, dst, b);
    forall j | 0 <= j < |phases[1..]| ensures PhaseStep(Before(phases[1..], j), phases[1..][j]) {
      assert PhaseStep(phases[j], phases[j + 1]);
    }
  }

  lemma SteadyOn(s: State, m: State, s': State, t: Tid)
    requires Steady(s, m, t) && Steady(m, s', t)
    ensures Steady(s, s', t)
  {
  }

  lemma SteadyStep(s: State, a: Action, t: Tid)
    requires Inv(s) && Enabled(s, a) && !a.Crash? && Actor(a) != Some(t)
    ensures Steady(s, Apply(s, a), t)
  {
    OthersStay(s, a, t);
    StepGrows(s, a);
    if !s.Pc(t).Idle? {
      NotOwned(s, a, t);
    }
  }

  lemma SteadyLater(start: State, s: State, a: Action, t: Tid)
    requires Inv(s) && Enabled(s, a) && !a.Crash? && Actor(a) != Some(t) && Steady(start, s, t)
    ensures Steady(start, Apply(s, a), t)
  {
    SteadyStep(s, a, t);
    SteadyOn(start, s, Apply(s, a), t);
  }

  // ----- Entries that wait for their turn -----

  lemma WaitStep(s: State, a: Action, t: Tid, e: EntryId)
    requires Inv(s) && Enabled(s, a) && !a.Crash? && Waits(s, e, t) && !Owns(s, t, e)
    requires Picks(a, t) ==> !a.SweepEnd? && a.entry != e
    ensures SameEntry(s, Apply(s, a), e) && Waits(Apply(s, a), e, t) && !Owns(Apply(s, a), t, e)
  {
    StepGrows(s, a);
    NotMine(s, a, t, e);
    NotTakenOn(s, a, t, e);
  }

  lemma NotMine(s: State, a: Action, t: Tid, e: EntryId)
    requires Inv(s) && Enabled(s, a) && Waits(s, e, t) && !Owns(s, t, e)
    requires Picks(a, t) ==> !a.SweepEnd? && a.entry != e
    ensures e !in Mine(s, a)
  {
    if Actor(a).Some? {
      assert PcGood(s, Actor(a).value);
    }
  }

  lemma NotTakenOn(s: State, a: Action, t: Tid, e: EntryId)
    requires Inv(s) && Enabled(s, a) && !a.Crash? && e !in Mine(s, a) && !Owns(s, t, e)
    ensures !Owns(Apply(s, a), t, e)
  {
    if Actor(a) == Some(t) {
      ActorStep(s, a);
    } else {
      OthersStay(s, a, t);
    }
  }

  /** An entry that waits for thread `t` stays as it is until the thread takes it on. */
  lemma {:induction false} StillWaits(before: seq<Action>, after: seq<Action>, t: Tid, e: EntryId)
    requires before <= after && Exec(after).Some? && Exec(before).Some?
    requires Waits(Exec(before).value, e, t) && !Owns(Exec(before).value, t, e)
    requires forall k :: |before| <= k < |after| ==>
      !after[k].Crash? && (Picks(after[k], t) ==> !after[k].SweepEnd? && after[k].entry != e)
    ensures var s, s' := Exec(before).value, Exec(after).value;
      SameEntry(s, s', e) && Waits(s', e, t) && !Owns(s', t, e)
    decreases |after|
  {
    if |before| == |after| {
      assert before == after;
    } else {
      var k := |after| - 1;
      StillWaits(before, after[..k], t, e);
      var ss := ExecIsRun(after[..k]);
      RunInv(ss, after[..k], k);
      WaitStep(Exec(after[..k]).value, after[k], t, e);
    }
  }

  /** What one pass of the poller has made of an entry that was held at its start: an approved one
      has left, if nothing fails, a rejected one is blocked, an undecided one is as it was. */
  ghost predicate PollResult(start: State, s: State, e: EntryId, luck: Luck)
    requires IsHeldMeta(start.MetaOf(e)) && start.MetaOf(e).meta.row in start.table.rows
  {
    var m := start.MetaOf(e).meta;
    var status := start.table.rows[m.row].status;
    && (luck.replied && status.Approved? && !PayloadOf(start, e).NoPayload? && Chain(luck.moves) && Arrives(luck.moves) ==>
          e in s.hist.delivered && (luck.metaRemoved && luck.dirRemoved ==> e !in s.disk))
    && (luck.replied && status.Rejected? && luck.opens && luck.completes ==>
          s.MetaOf(e) == Readable(m.(state := Blocked)))
    && (!luck.replied || (m.row in s.table.rows && s.table.rows[m.row].status.Pending?) ==> Files(s, e) == Files(start, e))
  }

  ghost predicate HeldAt(s: State, e: EntryId) {
    IsHeldMeta(s.MetaOf(e)) && s.MetaOf(e).meta.row in s.table.rows && e in s.hist.origin
  }

  lemma HeldHasRow(s: State, e: EntryId)
    requires Inv(s) && IsHeldMeta(s.MetaOf(e))
    ensures HeldAt(s, e)
  {
  }

  lemma PolledNow(start: State, s: State, s': State, e: EntryId, luck: Luck, status: Option<Status>)
    requires HeldAt(start, e) && Files(s, e) == Files(start, e) && TableGrows(start.table, s.table)
    requires status.Some? <==> luck.replied
    requires status.Some? ==> StatusRead(s.table, s'.table, start.MetaOf(e).meta.row, status.value)
    requires PollEffect(s, s', e, luck, status)
    ensures PollResult(start, s', e, luck)
  {
  }

  lemma PollResultStays(start: State, s: State, s': State, e: EntryId, luck: Luck)
    requires HeldAt(start, e) && PollResult(start, s, e, luck)
    requires TableGrows(start.table, s.table) && TableGrows(s.table, s'.table)
    requires Keeps(start.hist.origin, s.hist.origin) && s.hist.delivered <= s'.hist.delivered
    requires Waits(s, e, POLLER) ==> SameEntry(s, s', e)
    ensures PollResult(start, s', e, luck)
  {
  }

  lemma PollResultsStay(before: seq<Action>, after: seq<Action>, start: State, done: set<EntryId>, e: EntryId, luck: EntryId -> Luck)
    requires Exec(before).Some? && Exec(after).Some? && OnWith(before, after, POLLER, e) && e !in done
    requires Exec(before).value.Pc(POLLER).Idle? && Onward(Exec(before).value, Exec(after).value, POLLER)
    requires TableGrows(start.table, Exec(before).value.table) && Keeps(start.hist.origin, Exec(before).value.hist.origin)
    requires forall x :: x in done && HeldAt(start, x) ==> PollResult(start, Exec(before).value, x, luck(x))
    ensures forall x :: x in done && HeldAt(start, x) ==> PollResult(start, Exec(after).value, x, luck(x))
  {
    RowsOnly(before, after);
    forall x | x in done && HeldAt(start, x) ensures PollResult(start, Exec(after).value, x, luck(x)) {
      if Waits(Exec(before).value, x, POLLER) {
        StillWaits(before, after, POLLER, x);
      }
      PollResultStays(start, Exec(before).value, Exec(after).value, x, luck(x));
    }
  }

  /** A pass of the poller over the entries `all`, of which it has not reached `left`. */
  ghost predicate PassSoFar(past: seq<Action>, now: seq<Action>, start: State, s: State,
                            left: set<EntryId>, all: set<EntryId>, luck: EntryId -> Luck) {
    && past <= now && Onward(start, s, POLLER) && s.daemon.up && s.Pc(POLLER).Idle? && TableGrows(start.table, s.table)
    && (forall k :: |past| <= k < |now| ==> !now[k].Crash? && (Picks(now[k], POLLER) ==> now[k].entry !in left))
    && (forall e :: e in all - left && HeldAt(start, e) ==> PollResult(start, s, e, luck(e)))
  }

  predicate IsPendingMeta(m: MetaFile) {
    m.Readable? && m.meta.state.PendingSubmit?
  }

  ghost predicate PendingAt(s: State, e: EntryId) {
    IsPendingMeta(s.MetaOf(e)) && e in s.hist.origin
  }

  /** Thread `t` has sent entry `e` with request `q`, and the answer was `d`. */
  ghost predicate AnsweredFor(steps: seq<Action>, from: nat, t: Tid, e: EntryId, q: RequestId, d: Decision) {
    Did(steps, from, Send(t, e, q)) && AnsweredSince(steps, from, q, d)
  }

  /** What the sweep has made of an entry that was pending at its start: it was sent, if it could be;
      `decision` is the backend's answer, None when it failed, and was acted on. */
  ghost predicate SweepResult(start: State, s: State, steps: seq<Action>, from: nat, e: EntryId, decision: Option<Decision>, luck: Luck)
    requires PendingAt(start, e)
  {
    && (luck.sent && !PayloadOf(start, e).NoPayload? ==> exists q :: Did(steps, from, Send(SWEEPER, e, q)))
    && (decision.Some? ==> exists q :: AnsweredFor(steps, from, SWEEPER, e, q, decision.value))
    && SweepEffect(start, s, e, decision, luck)
  }

  ghost predicate SweepEffect(start: State, s: State, e: EntryId, decision: Option<Decision>, luck: Luck)
    requires PendingAt(start, e)
  {
    match decision
    case None => Files(s, e) == Files(start, e)
    case Some(Release) =>
      Chain(luck.moves) && Arrives(luck.moves) && !PayloadOf(start, e).NoPayload? ==>
        e in s.hist.delivered && (luck.metaRemoved && luck.dirRemoved ==> e !in s.disk)
    case Some(Block) =>
      luck.opens && luck.completes ==> s.MetaOf(e) == Readable(start.MetaOf(e).meta.(state := Blocked))
    case Some(Hold) => true
  }

  lemma SweepEffectStays(start: State, s: State, s': State, e: EntryId, decision: Option<Decision>, luck: Luck)
    requires PendingAt(start, e) && SweepEffect(start, s, e, decision, luck)
    requires e in s.hist.origin && s.hist.delivered <= s'.hist.delivered
    requires Files(start, e) == Files(s, e) || Waits(s, e, SWEEPER) ==> SameEntry(s, s', e)
    ensures SweepEffect(start, s', e, decision, luck)
  {
  }

  lemma SweptNow(start: State, s: State, s': State, steps: seq<Action>, from: nat, at: nat,
                 e: EntryId, q: RequestId, decision: Option<Decision>, luck: Luck)
    requires PendingAt(start, e) && Files(s, e) == Files(start, e) && from <= at
    requires Asked(steps, at, SWEEPER, e, q, PayloadOf(s, e), decision, luck)
    requires Acted(Files(s, e), s', e, start.MetaOf(e).meta, decision, luck)
    ensures SweepResult(start, s', steps, from, e, decision, luck)
  {
    if luck.sent && !PayloadOf(start, e).NoPayload? {
      assert Did(steps, from, Send(SWEEPER, e, q));
    }
    if decision.Some? {
      assert AnsweredFor(steps, from, SWEEPER, e, q, decision.value);
    }
  }

  lemma SweepResultStays(start: State, s: State, s': State, steps: seq<Action>, steps': seq<Action>, from: nat,
                         e: EntryId, decision: Option<Decision>, luck: Luck)
    requires PendingAt(start, e) && SweepResult(start, s, steps, from, e, decision, luck) && steps <= steps' && from <= |steps|
    requires e in s.hist.origin && s.hist.delivered <= s'.hist.delivered
    requires Files(start, e) == Files(s, e) || Waits(s, e, SWEEPER) ==> SameEntry(s, s', e)
    ensures SweepResult(start, s', steps', from, e, decision, luck)
  {
    SweepEffectStays(start, s, s', e, decision, luck);
    if q :| Did(steps, from, Send(SWEEPER, e, q)) {
      AskedLater(steps, steps', from, e, q, Block, SWEEPER);
    }
    if decision.Some? {
      var q :| AnsweredFor(steps, from, SWEEPER, e, q, decision.value);
      AskedLater(steps, steps', from, e, q, decision.value, SWEEPER);
      assert AnsweredFor(steps', from, SWEEPER, e, q, decision.value);
    }
  }

  /** The startup sweep on its way. */
  ghost predicate SweepUnderWay(past: seq<Action>, now: seq<Action>, start: State, s: State,
                             decisions: map<EntryId, Option<Decision>>, luck: EntryId -> Luck) {
    && past <= now && s.daemon.up && s.daemon.sweeping && s.Pc(SWEEPER).Idle? && s.daemon.todo <= start.daemon.todo
    && Keeps(start.hist.origin, s.hist.origin)
    && (forall k :: |past| <= k < |now| ==>
          !now[k].Crash? && (Picks(now[k], SWEEPER) ==> !now[k].SweepEnd? && now[k].entry !in s.daemon.todo))
    && (forall e :: e in start.daemon.todo - s.daemon.todo && PendingAt(start, e) ==>
          e in decisions && SweepResult(start, s, now, |past|, e, decisions[e], luck(e)))
  }

  lemma SweepResultsStay(past: seq<Action>, before: seq<Action>, after: seq<Action>, start: State, e: EntryId,
                         decisions: map<EntryId, Option<Decision>>, luck: EntryId -> Luck)
    requires Exec(before).Some? && Exec(after).Some? && OnWith(before, after, SWEEPER, e)
    requires SweepUnderWay(past, before, start, Exec(before).value, decisions, luck) && e in Exec(before).value.daemon.todo
    requires Exec(before).value.hist.delivered <= Exec(after).value.hist.delivered
    ensures forall x :: x in start.daemon.todo - Exec(before).value.daemon.todo && PendingAt(start, x) ==>
      x in decisions && SweepResult(start, Exec(after).value, after, |past|, x, decisions[x], luck(x))
  {
    var s := Exec(before).value;
    forall x | x in start.daemon.todo - s.daemon.todo && PendingAt(start, x)
      ensures x in decisions && SweepResult(start, Exec(after).value, after, |past|, x, decisions[x], luck(x))
    {
      if Waits(s, x, SWEEPER) {
        StillWaits(before, after, SWEEPER, x);
      }
      SweepResultStays(start, s, Exec(after).value, before, after, |past|, x, decisions[x], luck(x));
    }
  }

  lemma WaitedSoFar(past: seq<Action>, begun: seq<Action>, before: seq<Action>, e: EntryId)
    requires Exec(past).Some? && Exec(before).Some? && past <= begun && On(begun, before, SWEEPER)
    requires var start := Exec(past).value;
      PendingAt(start, e) && start.Pc(SWEEPER).Idle? && start.daemon.up && start.daemon.sweeping
    requires forall k :: |past| <= k < |begun| ==>
      !begun[k].Crash? && (Picks(begun[k], SWEEPER) ==> !begun[k].SweepEnd? && begun[k].entry != e)
    ensures Files(Exec(before).value, e) == Files(Exec(past).value, e)
  {
    StillWaits(past, before, SWEEPER, e);
  }

  lemma OnwardOn(s: State, m: State, s': State, t: Tid)
    requires Onward(s, m, t) && Onward(m, s', t)
    ensures Onward(s, s', t)
  {
  }

  class System {
    var st: State
    ghost var steps: seq<Action>

    ghost predicate Valid() reads this {
      Exec(steps) == Some(st)
    }

    lemma Facts()
      requires Valid()
      ensures Inv(st)
    {
      var ss := ExecIsRun(steps);
      RunInv(ss, steps, |steps|);
    }

    lemma Knows(t: Tid)
      requires Valid()
      ensures PcGood(st, t)
    {
      Facts();
    }

    constructor ()
      ensures Valid() && st == EMPTY
    {
      st, steps := EMPTY, [];
    }

    method Do(a: Action)
      requires Valid() && Enabled(st, a)
      modifies this
      ensures Valid() && st == Apply(old(st), a) && steps == old(steps) + [a]
    {
      assert (steps + [a])[..|steps|] == steps;
      st, steps := Apply(st, a), steps + [a];
    }

    /** Preemption: the others do whatever the scheduler says and the system allows. */
    method Meanwhile(t: Tid, others: Others)
      requires Valid()
      modifies this
      ensures Valid() && On(old(steps), steps, t) && Steady(old(st), st, t)
      ensures MovesBy(steps, t) == MovesBy(old(steps), t)
      ensures var pc := old(st.Pc(t));
        pc.Waiting? && pc.request !in old(st).net.replies ==> Heard(st, steps, |old(steps)|, pc.request)
    {
      var acts := others(st);
      for i := 0 to |acts|
        invariant Valid() && On(old(steps), steps, t) && Steady(old(st), st, t)
        invariant MovesBy(steps, t) == MovesBy(old(steps), t)
        invariant st.Pc(t).Waiting? && st.Pc(t).request !in old(st).net.replies ==>
          Heard(st, steps, |old(steps)|, st.Pc(t).request)
      {
        if Enabled(st, acts[i]) && !acts[i].Crash? && Actor(acts[i]) != Some(t) {
          Other(t, acts[i], old(st), old(steps));
        }
      }
    }

    /** One step of another thread, of the backend or of the admin. */
    method Other(t: Tid, a: Action, ghost start: State, ghost past: seq<Action>)
      requires Valid() && Enabled(st, a) && !a.Crash? && Actor(a) != Some(t)
      requires On(past, steps, t) && Steady(start, st, t) && MovesBy(steps, t) == MovesBy(past, t)
      requires st.Pc(t).Waiting? && st.Pc(t).request !in start.net.replies ==> Heard(st, steps, |past|, st.Pc(t).request)
      modifies this
      ensures Valid() && On(past, steps, t) && Steady(start, st, t) && MovesBy(steps, t) == MovesBy(past, t)
      ensures st.Pc(t).Waiting? && st.Pc(t).request !in start.net.replies ==> Heard(st, steps, |past|, st.Pc(t).request)
    {
      Facts();
      SteadyLater(start, st, a, t);
      MovesAppend(steps, a, t);
      if st.Pc(t).Waiting? && st.Pc(t).request !in start.net.replies {
        HeardStep(st, a, steps, |past|, t, st.Pc(t).request);
      }
      Do(a);
    }

    /** writeMeta by the thread's current intent; an error leaves meta.json torn or untouched. */
    method WriteMeta(t: Tid, luck: Luck, others: Others) returns (ok: bool)
      requires Valid() && NextMeta(st.Pc(t)).Some? && st.Pc(t).entry in st.disk
      modifies this
      ensures Valid() && On(old(steps), steps, t) && Onward(old(st), st, t)
      ensures var e, m := old(st.Pc(t).entry), NextMeta(old(st.Pc(t))).value;
        && e in st.disk && st.disk[e].payload == old(st.disk[e].payload)
        && (ok ==> st.MetaOf(e) == Readable(m) && st.Pc(t) == (if m.state.PendingSubmit? then Ready(e, m) else Idle))
        && (!ok ==> st.Pc(t).Idle? && st.MetaOf(e) in {Torn, old(st.MetaOf(e))})
        && (e in st.hist.delivered <==> e in old(st).hist.delivered)
      ensures ok <==> luck.opens && luck.completes
    {
      ok := false;
      if !luck.opens {
        Do(Abandon(t));
        return;
      }
      OpenMeta(t, others);
      ok := luck.completes;
      Do(if ok then FinishWrite(t) else Abandon(t));
    }

    method OpenMeta(t: Tid, others: Others)
      requires Valid() && NextMeta(st.Pc(t)).Some? && st.Pc(t).entry in st.disk
      modifies this
      ensures Valid() && On(old(steps), steps, t) && Onward(old(st), st, t)
      ensures var e, m := old(st.Pc(t).entry), NextMeta(old(st.Pc(t))).value;
        && e in st.disk && st.disk[e] == Entry(old(st.disk[e].payload), Torn) && st.Pc(t) == Writing(e, m)
        && (e in st.hist.delivered <==> e in old(st).hist.delivered)
    {
      Do(BeginWrite(t));
      Meanwhile(t, others);
    }

    /** The releasing move comes to phase `ph`, if it can. */
    method TryMove(t: Tid, ph: Phase)
      requires Valid() && st.Pc(t).Releasing?
      modifies this
      ensures Valid() && On(old(steps), steps, t) && Onward(old(st), st, t)
      ensures MovedOn(old(st), st, t, ph)
      ensures MovesBy(steps, t) == MovesBy(old(steps), t) + if CanMove(old(st), t, ph) then [ph] else []
    {
      Knows(t);
      MovesAppend(steps, ReleaseMove(t, ph), t);
      if CanMove(st, t, ph) {
        Do(ReleaseMove(t, ph));
      }
    }

    method MoveOn(t: Tid, ph: Phase, others: Others)
      requires Valid() && st.Pc(t).Releasing?
      modifies this
      ensures Valid() && On(old(steps), steps, t) && Onward(old(st), st, t)
      ensures MovedOn(old(st), st, t, ph)
      ensures MovesBy(steps, t) == MovesBy(old(steps), t) + if CanMove(old(st), t, ph) then [ph] else []
    {
      TryMove(t, ph);
      Meanwhile(t, others);
    }

    /** moveFile from quarantine to the original path. When `luck.moves` are phases moveFile can go
        through and the payload is there, every one of them is taken. */
    method MoveOut(t: Tid, luck: Luck, others: Others) returns (ok: bool)
      requires Valid() && st.Pc(t).Releasing? && st.Pc(t).phase.AtSource?
      modifies this
      ensures Valid() && On(old(steps), steps, t) && Onward(old(st), st, t)
      ensures var e, m := old(st.Pc(t).entry), old(st.Pc(t).meta);
        && (!ok ==> Files(st, e) == old(Files(st, e)) && st.Pc(t).Idle?)
        && (ok ==> HasLeft(st, e) && st.Pc(t) == Releasing(e, m, AtDest))
      ensures Chain(luck.moves) && PayloadOf(old(st), old(st.Pc(t).entry)) != NoPayload ==>
        (ok <==> Before(luck.moves, |luck.moves|).AtDest?) && MovesBy(steps, t) == MovesBy(old(steps), t) + luck.moves
    {
      TakeMoves(t, luck.moves, others);
      ok := st.Pc(t).phase.AtDest?;
      if ok {
        Knows(t);
      } else {
        MovesAppend(steps, Abandon(t), t);
        Do(Abandon(t));
      }
    }

    method TakeMoves(t: Tid, moves: seq<Phase>, others: Others)
      requires Valid() && st.Pc(t).Releasing? && st.Pc(t).phase.AtSource?
      modifies this
      ensures Valid() && On(old(steps), steps, t) && Onward(old(st), st, t)
      ensures var e, m := old(st.Pc(t).entry), old(st.Pc(t).meta);
        && st.Pc(t).Releasing? && st.Pc(t).entry == e && st.Pc(t).meta == m
        && (!st.Pc(t).phase.AtDest? ==> Files(st, e) == old(Files(st, e)))
        && (Chain(moves) && PayloadOf(old(st), e) != NoPayload ==>
              st.Pc(t).phase == Before(moves, |moves|) && MovesBy(steps, t) == MovesBy(old(steps), t) + moves)
    {
      ghost var e, m := st.Pc(t).entry, st.Pc(t).meta;
      for i := 0 to |moves|
        invariant Valid() && On(old(steps), steps, t) && Onward(old(st), st, t)
        invariant st.Pc(t).Releasing? && st.Pc(t).entry == e && st.Pc(t).meta == m
        invariant !st.Pc(t).phase.AtDest? ==> Files(st, e) == old(Files(st, e))
        invariant Chain(moves) && PayloadOf(old(st), e) != NoPayload ==>
          st.Pc(t).phase == Before(moves, i) && MovesBy(steps, t) == MovesBy(old(steps), t) + moves[..i]
      {
        ghost var taken := MovesBy(steps, t);
        MoveOn(t, moves[i], others);
        if Chain(moves) && PayloadOf(old(st), e) != NoPayload {
          TakenOne(MovesBy(old(steps), t), taken, moves, i);
        }
      }
      assert moves[..|moves|] == moves;
    }

    /** os.RemoveAll of the entry directory; its errors are ignored. */
    method RemoveAll(t: Tid, luck: Luck, others: Others)
      requires Valid() && st.Pc(t).Released? && HasLeft(st, st.Pc(t).entry)
      modifies this
      ensures Valid() && On(old(steps), steps, t) && Onward(old(st), st, t)
      ensures st.Pc(t).Idle?
      ensures var e := old(st.Pc(t).entry);
        && e in st.hist.delivered && PayloadOf(st, e) == NoPayload
        && (luck.metaRemoved && luck.dirRemoved ==> e !in st.disk)
    {
      if !luck.metaRemoved {
        Do(Abandon(t));
        return;
      }
      Do(RemoveMeta(t));
      Meanwhile(t, others);
      Do(if luck.dirRemoved then RemoveDir(t) else Abandon(t));
    }

    /** The release of an entry: moveFile, and RemoveAll of its directory once that returned nil. */
    method ReleaseEntry(t: Tid, luck: Luck, others: Others) returns (ok: bool)
      requires Valid() && st.Pc(t).Releasing? && st.Pc(t).phase.AtSource?
      modifies this
      ensures Valid() && On(old(steps), steps, t) && Onward(old(st), st, t) && st.Pc(t).Idle?
      ensures ReleaseResult(old(Files(st, st.Pc(t).entry)), st, old(st.Pc(t).entry), luck)
      ensures var e := old(st.Pc(t).entry);
        && (!ok ==> Files(st, e) == old(Files(st, e)))
        && (ok ==> e in st.hist.delivered && PayloadOf(st, e) == NoPayload)
        && (ok && luck.metaRemoved && luck.dirRemoved ==> e !in st.disk)
    {
      ok := MoveOut(t, luck, others);
      if !ok {
        return;
      }
      Do(ReleaseDone(t));
      Meanwhile(t, others);
      RemoveAll(t, luck, others);
    }

    /** submit, up to the request: it needs a payload to read. */
    method Post(t: Tid, luck: Luck, others: Others) returns (ok: bool)
      requires Valid() && st.Pc(t).Ready?
      modifies this
      ensures Valid() && On(old(steps), steps, t) && Onward(old(st), st, t)
      ensures SameEntry(old(st), st, old(st.Pc(t)).entry)
      ensures !ok ==> st.Pc(t).Idle?
      ensures ok ==> st.Pc(t).Waiting? && st.Pc(t).entry == old(st.Pc(t)).entry && st.Pc(t).meta == old(st.Pc(t)).meta
      ensures ok <==> luck.sent && PayloadOf(old(st), old(st.Pc(t)).entry) != NoPayload
      ensures ok ==> st.Pc(t).request == old(st).net.next && st.Pc(t).request !in st.net.replies
      ensures ok ==> steps == old(steps) + [Send(t, old(st.Pc(t)).entry, old(st).net.next)]
      ensures !ok ==> steps == old(steps) + [Abandon(t)]
    {
      Facts();
      Knows(t);
      ok := luck.sent && st.disk[st.Pc(t).entry].payload != NoPayload;
      Do(if ok then Send(t, st.Pc(t).entry, st.net.next) else Abandon(t));
    }

    /** submit: the request, and the wait for the answer. No payload, a request that cannot be
        sent and a lost answer are errors. */
    method Submit(t: Tid, luck: Luck, others: Others) returns (ok: bool)
      requires Valid() && st.Pc(t).Ready?
      modifies this
      ensures Valid() && On(old(steps), steps, t) && Onward(old(st), st, t)
      ensures SameEntry(old(st), st, old(st.Pc(t)).entry)
      ensures !ok ==> st.Pc(t).Idle?
      ensures ok ==> st.Pc(t).Answered? && st.Pc(t).entry == old(st.Pc(t)).entry && st.Pc(t).meta == old(st.Pc(t)).meta
      ensures Asked(steps, |old(steps)|, t, old(st.Pc(t)).entry, old(st).net.next, PayloadOf(old(st), old(st.Pc(t)).entry),
                    if ok then Some(st.Pc(t).reply.decision) else None, luck)
    {
      ok := Post(t, luck, others);
      if ok {
        ghost var sent, q := steps, st.Pc(t).request;
        ok := Await(t, luck, others);
        HeardBefore(old(steps), sent, steps, q);
      }
    }

    /** submit, from the request on: the answer, if the backend comes to one and it is not lost. */
    method Await(t: Tid, luck: Luck, others: Others) returns (ok: bool)
      requires Valid() && st.Pc(t).Waiting? && st.Pc(t).request !in st.net.replies
      modifies this
      ensures Valid() && On(old(steps), steps, t) && Onward(old(st), st, t)
      ensures SameEntry(old(st), st, old(st.Pc(t)).entry)
      ensures !ok ==> st.Pc(t).Idle?
      ensures ok ==> st.Pc(t).Answered? && st.Pc(t).entry == old(st.Pc(t)).entry && st.Pc(t).meta == old(st.Pc(t)).meta
      ensures ok <==> luck.replied && HandledSince(steps, |old(steps)|, old(st.Pc(t)).request)
      ensures ok ==> AnsweredSince(steps, |old(steps)|, old(st.Pc(t)).request, st.Pc(t).reply.decision)
    {
      Meanwhile(t, others);
      ok := luck.replied && st.Pc(t).request in st.net.replies;
      ghost var heard, q := steps, st.Pc(t).request;
      Do(if ok then Receive(t) else Abandon(t));
      HeardLater(heard, steps, |old(steps)|, q);
    }

    /** submitAndAct. `decision` is the backend's, None when the submission failed. A failed
        submission leaves the entry pending with its payload; nothing but a release
        answer takes the payload out of quarantine; block and hold are recorded. */
    method SubmitAndAct(t: Tid, luck: Luck, others: Others) returns (decision: Option<Decision>)
      requires Valid() && st.Pc(t).Ready?
      modifies this
      ensures Valid() && On(old(steps), steps, t) && Onward(old(st), st, t) && st.Pc(t).Idle?
      ensures old(st.Pc(t).entry) in st.hist.delivered - old(st).hist.delivered ==> decision == Some(Release)
      ensures var e, m := old(st.Pc(t).entry), old(st.Pc(t).meta);
        && Asked(steps, |old(steps)|, t, e, old(st).net.next, PayloadOf(old(st), e), decision, luck)
        && Acted(Files(old(st), e), st, e, m, decision, luck)
    {
      Knows(t);
      decision := None;
      var ok := Submit(t, luck, others);
      if !ok {
        return;
      }
      Knows(t);
      decision := Some(st.Pc(t).reply.decision);
      ghost var asked := steps;
      ActOnAnswer(t, luck, others);
      AskedLater(asked, steps, |old(steps)|, old(st.Pc(t)).entry, old(st).net.next, decision.value, t);
    }

    /** What submitAndAct does with the answer it got. */
    method ActOnAnswer(t: Tid, luck: Luck, others: Others)
      requires Valid() && st.Pc(t).Answered?
      modifies this
      ensures Valid() && On(old(steps), steps, t) && Onward(old(st), st, t) && st.Pc(t).Idle?
      ensures var pc := old(st.Pc(t));
        && (pc.entry in st.hist.delivered - old(st).hist.delivered ==> pc.reply.decision.Release?)
        && Acted(Files(old(st), pc.entry), st, pc.entry, pc.meta, Some(pc.reply.decision), luck)
    {
      Knows(t);
      match st.Pc(t).reply.decision {
        case Release =>
          Do(BeginRelease(t));
          var _ := ReleaseEntry(t, luck, others);
        case Block =>
          var _ := WriteMeta(t, luck, others);
        case Hold =>
          var _ := WriteMeta(t, luck, others);
          Facts();
      }
    }

    /** The capturing move comes to phase `ph`, if it can. */
    method CaptureOn(t: Tid, ph: Phase, others: Others)
      requires Valid() && st.Pc(t).Capturing?
      modifies this
      ensures Valid() && On(old(steps), steps, t) && Onward(old(st), st, t)
      ensures var pc := old(st.Pc(t));
        st.Pc(t) == Capturing(pc.entry, pc.path, pc.bytes, if PhaseStep(pc.phase, ph) then ph else pc.phase)
    {
      Knows(t);
      if PhaseStep(st.Pc(t).phase, ph) {
        Do(CaptureMove(t, ph));
      }
      Meanwhile(t, others);
    }

    /** The capture of processNewFile: moveFile into a fresh entry directory. */
    method Capture(t: Tid, e: EntryId, path: string, bytes: Bytes, luck: Luck, others: Others) returns (ok: bool)
      requires Valid() && st.daemon.up && !st.daemon.sweeping && t > SWEEPER && st.Pc(t).Idle? && e !in st.hist.origin
      modifies this
      ensures Valid() && On(old(steps), steps, t) && Onward(old(st), st, t)
      ensures e in st.hist.origin && st.hist.origin[e] == path
      ensures !ok ==> st.Pc(t).Idle? && e !in st.hist.captured
      ensures ok ==> st.Pc(t) == HasPayload(e, path) && e in st.hist.captured && st.hist.captured[e] == bytes
      ensures Chain(luck.moves) ==> (ok <==> Before(luck.moves, |luck.moves|).AtDest?)
    {
      Do(StartCapture(t, e, path, bytes));
      CaptureAll(t, luck.moves, others);
      ok := EndCapture(t);
    }

    method CaptureAll(t: Tid, moves: seq<Phase>, others: Others)
      requires Valid() && st.Pc(t).Capturing? && st.Pc(t).phase.AtSource?
      modifies this
      ensures Valid() && On(old(steps), steps, t) && Onward(old(st), st, t)
      ensures var pc := old(st.Pc(t));
        st.Pc(t).Capturing? && st.Pc(t) == Capturing(pc.entry, pc.path, pc.bytes, st.Pc(t).phase)
      ensures Chain(moves) ==> st.Pc(t).phase == Before(moves, |moves|)
    {
      ghost var pc := st.Pc(t);
      for i := 0 to |moves|
        invariant Valid() && On(old(steps), steps, t) && Onward(old(st), st, t)
        invariant st.Pc(t).Capturing? && st.Pc(t) == Capturing(pc.entry, pc.path, pc.bytes, st.Pc(t).phase)
        invariant Chain(moves) ==> st.Pc(t).phase == Before(moves, i)
      {
        CaptureOn(t, moves[i], others);
      }
    }

    method EndCapture(t: Tid) returns (ok: bool)
      requires Valid() && st.Pc(t).Capturing?
      modifies this
      ensures Valid() && On(old(steps), steps, t) && Onward(old(st), st, t)
      ensures var pc := old(st.Pc(t));
        && pc.entry in st.hist.origin && st.hist.origin[pc.entry] == pc.path
        && (!ok ==> st.Pc(t).Idle? && pc.entry !in st.hist.captured)
        && (ok ==> st.Pc(t) == HasPayload(pc.entry, pc.path)
                   && pc.entry in st.hist.captured && st.hist.captured[pc.entry] == pc.bytes)
        && (ok <==> pc.phase.AtDest?)
    {
      Knows(t);
      ok := st.Pc(t).phase.AtDest?;
      Do(if ok then CaptureDone(t) else Abandon(t));
    }

    /** processNewFile once the payload is in place: write the first meta, then submit. `first` is
        the outcome of the former, `luck` of the latter. */
    method SubmitNew(t: Tid, first: Luck, luck: Luck, others: Others) 
      returns (decision: Option<Decision>, ghost q: RequestId, ghost at: nat)
      requires Valid() && st.Pc(t).HasPayload?
      modifies this
      ensures Valid() && On(old(steps), steps, t) && Onward(old(st), st, t) && st.Pc(t).Idle?
      ensures old(st.Pc(t)).entry in st.hist.delivered ==> decision == Some(Release)
      ensures var e, m := old(st.Pc(t)).entry, FirstMeta(old(st.Pc(t)).path); var payload := PayloadOf(old(st), e);
        && (first.opens && first.completes ==>
              |old(steps)| <= at && Asked(steps, at, t, e, q, payload, decision, luck)
              && Acted(Some(Entry(payload, Readable(m))), st, e, m, decision, luck))
        && (!(first.opens && first.completes) ==>
              decision.None? && PayloadOf(st, e) == payload && st.MetaOf(e) in {NoMeta, Torn})
    {
      Knows(t);
      q, decision, at := 0, None, 0;
      var ok := WriteMeta(t, first, others);
      if ok {
        q, at := st.net.next, |steps|;
        decision := SubmitAndAct(t, luck, others);
      }
    }

    /** processNewFile. Whatever fails, a captured file is whole in quarantine unless the
        backend answered release for it and the release was completed. When the capture and the
        first meta succeed, the file is submitted, and the answer acted on. */
    method ProcessNewFile(t: Tid, e: EntryId, path: string, present: bool, bytes: Bytes, first: Luck, luck: Luck, others: Others)
      returns (decision: Option<Decision>, ghost q: RequestId, ghost at: nat)
      requires Valid() && st.daemon.up && !st.daemon.sweeping && t > SWEEPER && st.Pc(t).Idle? && e !in st.hist.origin
      modifies this
      ensures Valid() && old(steps) <= steps && st.Pc(t).Idle?
      ensures !present ==> st == old(st)
      ensures e in st.hist.captured ==>
        && st.hist.captured[e] == bytes && e in st.hist.origin && st.hist.origin[e] == path
        && (PayloadOf(st, e) == Whole(bytes) || (e in st.hist.answered && e in st.hist.delivered && decision == Some(Release)))
      ensures present && Chain(first.moves) && Arrives(first.moves) ==> e in st.hist.captured
      ensures present && Chain(first.moves) && Arrives(first.moves) && first.opens && first.completes ==>
        && |old(steps)| <= at && Asked(steps, at, t, e, q, Whole(bytes), decision, luck)
        && Acted(Some(Entry(Whole(bytes), Readable(FirstMeta(path)))), st, e, FirstMeta(path), decision, luck)
    {
      decision, q, at := None, 0, 0;
      if !present {
        Facts();
        return;
      }
      var ok := Capture(t, e, path, bytes, first, others);
      if !ok {
        return;
      }
      SettleNew(t, others);
      decision, q, at := SubmitNew(t, first, luck, others);
      Facts();
    }

    method SettleNew(t: Tid, others: Others)
      requires Valid() && st.Pc(t).HasPayload?
      modifies this
      ensures Valid() && On(old(steps), steps, t) && Onward(old(st), st, t) && st.Pc(t) == old(st).Pc(t)
      ensures var e := st.Pc(t).entry; e in st.hist.captured && PayloadOf(st, e) == Whole(st.hist.captured[e])
    {
      Meanwhile(t, others);
      Facts();
      Knows(t);
    }

    /** What pollHeldEntries does with the status it got. */
    method ActOnPoll(luck: Luck, others: Others)
      requires Valid() && st.Pc(POLLER).Polled?
      modifies this
      ensures Valid() && On(old(steps), steps, POLLER) && Onward(old(st), st, POLLER) && st.Pc(POLLER).Idle?
      ensures var e, m := old(st.Pc(POLLER)).entry, old(st.Pc(POLLER)).meta;
        match old(st.Pc(POLLER)).status
        case Pending => SameEntry(old(st), st, e)
        case Approved =>
          Authorized(old(st).hist, old(st).table, e, ByRow(m.row)) && ReleaseResult(Files(old(st), e), st, e, luck)
        case Rejected =>
          && PayloadOf(st, e) == PayloadOf(old(st), e)
          && (luck.opens && luck.completes ==> st.MetaOf(e) == Readable(m.(state := Blocked)))
    {
      Knows(POLLER);
      match st.Pc(POLLER).status {
        case Approved =>
          Do(BeginRelease(POLLER));
          var _ := ReleaseEntry(POLLER, luck, others);
        case Rejected =>
          var _ := WriteMeta(POLLER, luck, others);
        case Pending =>
          Do(Abandon(POLLER));
      }
    }

    /** The part of pollHeldEntries that reads the meta of one entry and polls its row. */
    method Poll(e: EntryId, luck: Luck, others: Others) returns (ok: bool)
      requires Valid() && st.daemon.up && st.Pc(POLLER).Idle?
      modifies this
      ensures Valid() && OnWith(old(steps), steps, POLLER, e) && Onward(old(st), st, POLLER)
      ensures TableGrows(old(st).table, st.table) && SameEntry(old(st), st, e)
      ensures ok <==> luck.replied && IsHeldMeta(old(st.MetaOf(e)))
      ensures !ok ==> st.Pc(POLLER).Idle?
      ensures ok ==> var m := old(st.MetaOf(e)).meta;
        m.row in old(st).table.rows && m.row in st.table.rows && st.Pc(POLLER) == Polled(e, m, st.table.rows[m.row].status)
    {
      ok := st.MetaOf(e).Readable? && st.MetaOf(e).meta.state.Held?;
      if ok {
        See(e, others);
        ok := luck.replied;
        Do(if ok then GetStatus else Abandon(POLLER));
      }
    }

    method See(e: EntryId, others: Others)
      requires Valid() && st.daemon.up && st.Pc(POLLER).Idle? && IsHeldMeta(st.MetaOf(e))
      modifies this
      ensures Valid() && OnWith(old(steps), steps, POLLER, e) && Onward(old(st), st, POLLER)
      ensures TableGrows(old(st).table, st.table) && SameEntry(old(st), st, e)
      ensures st.Pc(POLLER) == Seen(e, old(st.MetaOf(e)).meta)
      ensures old(st.MetaOf(e)).meta.row in old(st).table.rows
    {
      Facts();
      Do(SeeHeld(e));
      Meanwhile(POLLER, others);
    }

    /** One entry of pollHeldEntries. `status` is the admin's decision as polled, None when the
        entry was not held or the poll failed. Only an approved row moves the payload. */
    method PollEntry(e: EntryId, luck: Luck, others: Others) returns (status: Option<Status>)
      requires Valid() && st.daemon.up && st.Pc(POLLER).Idle?
      modifies this
      ensures Valid() && OnWith(old(steps), steps, POLLER, e) && Onward(old(st), st, POLLER) && st.Pc(POLLER).Idle?
      ensures status.Some? <==> luck.replied && IsHeldMeta(old(st.MetaOf(e)))
      ensures status.Some? ==> StatusRead(old(st).table, st.table, old(st.MetaOf(e)).meta.row, status.value)
      ensures PollEffect(old(st), st, e, luck, status)
    {
      status := None;
      var ok := Poll(e, luck, others);
      if ok {
        ghost var polled, row := steps, st.Pc(POLLER).meta.row;
        status := Some(st.Pc(POLLER).status);
        ghost var table := st.table;
        ActOnPoll(luck, others);
        RowsOnly(polled, steps);
        ReadBetween(old(st).table, table, st.table, row);
      }
    }

    /** An entry that may have been held when the pass began, when its turn comes. */
    method PollOne(e: EntryId, luck: Luck, others: Others, ghost start: State)
      requires Valid() && st.daemon.up && st.Pc(POLLER).Idle?
      requires HeldAt(start, e) ==> Files(st, e) == Files(start, e)
      requires TableGrows(start.table, st.table) && Keeps(start.hist.origin, st.hist.origin)
      modifies this
      ensures Valid() && OnWith(old(steps), steps, POLLER, e) && Onward(old(st), st, POLLER) && st.Pc(POLLER).Idle?
      ensures HeldAt(start, e) ==> PollResult(start, st, e, luck)
    {
      ghost var past := steps;
      Meanwhile(POLLER, others);
      if HeldAt(start, e) {
        StillWaits(past, steps, POLLER, e);
      }
      ghost var before := st;
      var status := PollEntry(e, luck, others);
      if HeldAt(start, e) {
        PolledNow(start, before, st, e, luck, status);
      }
    }

    /** One turn of the pass over the entries `left`. */
    method PollTurn(e: EntryId, luck: EntryId -> Luck, others: Others,
                    ghost past: seq<Action>, ghost start: State, ghost left: set<EntryId>, ghost all: set<EntryId>)
      requires Valid() && Exec(past) == Some(start) && start.Pc(POLLER).Idle? && e in left && left <= all
      requires PassSoFar(past, steps, start, st, left, all, luck)
      modifies this
      ensures Valid() && PassSoFar(past, steps, start, st, left - {e}, all, luck)
    {
      ghost var before, was := steps, st;
      if HeldAt(start, e) {
        StillWaits(past, steps, POLLER, e);
      }
      PollOne(e, luck(e), others, start);
      RowsOnly(past, steps);
      PollResultsStay(before, steps, start, all - left, e, luck);
      OnwardOn(start, was, st, POLLER);
      assert all - (left - {e}) == (all - left) + {e};
    }

    /** pollHeldEntries: every entry with a readable meta is looked at once. */
    method PollHeldEntries(luck: EntryId -> Luck, others: Others)
      requires Valid() && st.daemon.up && st.Pc(POLLER).Idle?
      modifies this
      ensures Valid() && old(steps) <= steps && Onward(old(st), st, POLLER) && st.Pc(POLLER).Idle?
      ensures forall e :: IsHeldMeta(old(st).MetaOf(e)) ==> HeldAt(old(st), e) && PollResult(old(st), st, e, luck(e))
    {
      Facts();
      var ids := set e: EntryId | e in st.disk && st.disk[e].metaFile.Readable?;
      ghost var past, start, all := steps, st, ids;
      while ids != {}
        invariant Valid() && ids <= all && PassSoFar(past, steps, start, st, ids, all, luck)
        decreases |ids|
      {
        var e: EntryId :| e in ids;
        PollTurn(e, luck, others, past, start, ids, all);
        ids := ids - {e};
      }
      forall e | IsHeldMeta(start.MetaOf(e)) ensures HeldAt(start, e) && PollResult(start, st, e, luck(e)) {
        HeldHasRow(start, e);
      }
    }

    /** One entry of the sweep. */
    method SweepOne(e: EntryId, luck: Luck, others: Others) returns (decision: Option<Decision>, ghost before: seq<Action>, ghost was: State)
      requires Valid() && st.daemon.up && st.daemon.sweeping && st.Pc(SWEEPER).Idle? && e in st.daemon.todo
      modifies this
      ensures Valid() && OnWith(old(steps), steps, SWEEPER, e) && st.Pc(SWEEPER).Idle?
      ensures st.daemon.up && st.daemon.sweeping && st.daemon.todo == old(st).daemon.todo - {e}
      ensures Keeps(old(st).hist.origin, st.hist.origin) && old(st).hist.delivered <= st.hist.delivered
      ensures On(old(steps), before, SWEEPER) && before <= steps && Exec(before) == Some(was)
      ensures IsPendingMeta(was.MetaOf(e)) ==>
        && Asked(steps, |before| + 1, SWEEPER, e, was.net.next, PayloadOf(was, e), decision, luck)
        && Acted(Files(was, e), st, e, was.MetaOf(e).meta, decision, luck)
    {
      decision := None;
      Meanwhile(SWEEPER, others);
      before, was := steps, st;
      Do(SweepTake(e));
      if st.Pc(SWEEPER).Ready? {
        decision := SubmitAndAct(SWEEPER, luck, others);
      }
    }

    method SweepTurn(e: EntryId, luck: EntryId -> Luck, others: Others, ghost past: seq<Action>, ghost start: State,
                     ghost sofar: map<EntryId, Option<Decision>>)
      returns (ghost decisions: map<EntryId, Option<Decision>>)
      requires Valid() && Exec(past) == Some(start) && start.Pc(SWEEPER).Idle? && start.daemon.up && start.daemon.sweeping
      requires e in st.daemon.todo && SweepUnderWay(past, steps, start, st, sofar, luck)
      modifies this
      ensures Valid() && SweepUnderWay(past, steps, start, st, decisions, luck) && st.daemon.todo == old(st).daemon.todo - {e}
    {
      ghost var begun := steps;
      var decision, before, was := SweepOne(e, luck(e), others);
      SweepResultsStay(past, begun, steps, start, e, sofar, luck);
      decisions := sofar[e := decision];
      if PendingAt(start, e) {
        WaitedSoFar(past, begun, before, e);
        SweptNow(start, was, st, steps, |past|, |before| + 1, e, was.net.next, decision, luck(e));
      }
    }

    /** resubmitPendingEntries: the startup sweep over the entries listed at boot. */
    method ResubmitPendingEntries(luck: EntryId -> Luck, others: Others) returns (ghost decisions: map<EntryId, Option<Decision>>)
      requires Valid() && st.daemon.up && st.daemon.sweeping && st.Pc(SWEEPER).Idle?
      modifies this
      ensures Valid() && old(steps) < steps && st.Pc(SWEEPER).Idle? && st.daemon.up
      ensures !st.daemon.sweeping && st.daemon.todo == {} && steps[|steps| - 1] == SweepEnd
      ensures forall e :: e in old(st).daemon.todo && PendingAt(old(st), e) ==>
        e in decisions && SweepResult(old(st), st, steps, |old(steps)|, e, decisions[e], luck(e))
    {
      ghost var past, start := steps, st;
      decisions := map[];
      while st.daemon.todo != {}
        invariant Valid() && SweepUnderWay(past, steps, start, st, decisions, luck)
        decreases |st.daemon.todo|
      {
        var e: EntryId :| e in st.daemon.todo;
        decisions := SweepTurn(e, luck, others, past, start, decisions);
      }
      EndSweep(past, start, decisions, luck);
    }

    method EndSweep(ghost past: seq<Action>, ghost start: State, ghost decisions: map<EntryId, Option<Decision>>, ghost luck: EntryId -> Luck)
      requires Valid() && SweepUnderWay(past, steps, start, st, decisions, luck) && st.daemon.todo == {}
      modifies this
      ensures Valid() && past < steps && st.Pc(SWEEPER).Idle? && st.daemon.up
      ensures !st.daemon.sweeping && st.daemon.todo == {} && steps[|steps| - 1] == SweepEnd
      ensures forall e :: e in start.daemon.todo && PendingAt(start, e) ==>
        e in decisions && SweepResult(start, st, steps, |past|, e, decisions[e], luck(e))
    {
      ghost var before, was := steps, st;
      Do(SweepEnd);
      forall e | e in start.daemon.todo && PendingAt(start, e)
        ensures e in decisions && SweepResult(start, st, steps, |past|, e, decisions[e], luck(e))
      {
        assert e in start.daemon.todo - was.daemon.todo;
        SweepResultStays(start, was, st, before, steps, |past|, e, decisions[e], luck(e));
      }
    }

    /** interceptHandler, from the verdict on: Normal is answered by release, Compromised by block,
        anything else by hold. A hold that cannot be recorded is an error, not an answer; a
        recorded one is a pending row for the submitted path. */
    method InterceptHandler(request: RequestId, verdict: Label, inserted: bool) returns (decision: Option<Decision>)
      requires Valid() && request in st.net.requests
      modifies this
      ensures Valid() && old(steps) <= steps && request !in st.net.requests
      ensures decision == Some(Release) <==> verdict.Normal?
      ensures decision == Some(Block) <==> verdict.Compromised?
      ensures decision == Some(Hold) <==> verdict in {Suspicious, Inconclusive} && inserted
      ensures decision.None? ==> st.table == old(st.table) && st.net.replies == old(st.net.replies)
      ensures decision.Some? ==> request in st.net.replies && st.net.replies[request].decision == decision.value
      ensures decision == Some(Hold) ==>
        exists r :: r !in old(st.table.rows) && st.net.replies[request].row == r
          && st.table.rows == old(st.table.rows)[r := Row(old(st.net.requests[request]).filename,
            old(st.net.requests[request]).originalPath, verdict, Pending, old(st.net.requests[request]).entry)]
      ensures decision in {Some(Release), Some(Block)} ==> st.table == old(st.table)
    {
      Facts();
      if DecisionFor(verdict).Hold? && !inserted {
        decision := None;
        Do(Drop(request));
      } else {
        decision := Some(DecisionFor(verdict));
        assert st.table.next !in st.table.rows;
        Do(Handle(request, verdict));
      }
    }

    /** decideQuarantine: only a pending row is decided, and a decided one is left as it is. */
    method DecideQuarantine(row: RowId, status: Status) returns (found: bool)
      requires Valid() && !status.Pending?
      modifies this
      ensures Valid() && old(steps) <= steps
      ensures found <==> row in old(st.table.rows) && old(st.table.rows)[row].status.Pending?
      ensures found ==> st.table.rows == old(st.table.rows)[row := old(st.table.rows[row]).(status := status)]
      ensures !found ==> st == old(st)
    {
      found := row in st.table.rows && st.table.rows[row].status.Pending?;
      if found {
        Do(Decide(row, status));
      }
    }
  }
}
