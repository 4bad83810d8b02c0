/** What every run of the custody step system guarantees, with crashes, lost messages and
    admin decisions at any point. */
module CustodyTheorems {
  import opened Options
  import opened Verdicts
  import opened FileMove
  import opened Custody
  import opened CustodyInvariant

  ghost predicate Run(ss: seq<State>, acts: seq<Action>) {
    && |ss| == |acts| + 1 && ss[0] == EMPTY
    && forall i :: 0 <= i < |acts| ==> Enabled(ss[i], acts[i]) && ss[i + 1] == Apply(ss[i], acts[i])
  }

  lemma {:induction false} RunInv(ss: seq<State>, acts: seq<Action>, i: nat)
    requires Run(ss, acts) && i < |ss|
    ensures Inv(ss[i])
  {
    if i > 0 {
      RunInv(ss, acts, i - 1);
      InvStep(ss[i - 1], acts[i - 1]);
    }
  }

  /** The backend comes to a verdict on a submission of entry `e` with bytes `b`. */
  ghost predicate Judges(s: State, a: Action, e: EntryId, b: Bytes) {
    a.Handle? && a.request in s.net.requests
    && s.net.requests[a.request].entry == e && s.net.requests[a.request].payload == Whole(b)
  }

  /** ... namely Normal, which alone is answered by release. */
  ghost predicate AnswersRelease(s: State, a: Action, e: EntryId, b: Bytes) {
    Judges(s, a, e, b) && a.verdict.Normal?
  }

  /** Bytes of entry `e` are written to its original path, from meta `m`. */
  ghost predicate PutsBack(s: State, a: Action, e: EntryId, m: Meta) {
    a.ReleaseMove? && !a.phase.AtSource? && s.Pc(a.t).Releasing? && s.Pc(a.t).entry == e && s.Pc(a.t).meta == m
  }

  lemma {:induction false} AnsweredWhen(ss: seq<State>, acts: seq<Action>, i: nat, e: EntryId)
    requires Run(ss, acts) && i < |ss| && e in ss[i].hist.answered
    ensures e in ss[i].hist.captured
    ensures exists j :: 0 <= j < i && AnswersRelease(ss[j], acts[j], e, ss[i].hist.captured[e])
  {
    RunInv(ss, acts, i - 1);
    CapturedStays(ss[i - 1], acts[i - 1]);
    if e in ss[i - 1].hist.answered {
      AnsweredWhen(ss, acts, i - 1, e);
    } else {
      AnswerIsJudged(ss[i - 1], acts[i - 1], e);
    }
  }

  lemma CapturedStays(s: State, a: Action)
    requires Inv(s) && Enabled(s, a)
    ensures forall e :: e in s.hist.captured ==>
      e in Apply(s, a).hist.captured && Apply(s, a).hist.captured[e] == s.hist.captured[e]
  {
    StepGrows(s, a);
  }

  lemma AnswerIsJudged(s: State, a: Action, e: EntryId)
    requires Enabled(s, a) && MessagesGood(s.net, s.hist, s.table)
    requires e !in s.hist.answered && e in Apply(s, a).hist.answered
    ensures e in s.hist.captured && AnswersRelease(s, a, e, s.hist.captured[e])
  {
  }

  /** Each row is about the file its entry was made from, and records a verdict on its bytes. */
  lemma RowWhen(ss: seq<State>, acts: seq<Action>, i: nat, r: RowId)
    requires Run(ss, acts) && i < |ss| && r in ss[i].table.rows
    ensures var row := ss[i].table.rows[r];
      && row.entry in ss[i].hist.captured && row.entry in ss[i].hist.origin
      && row.originalPath == ss[i].hist.origin[row.entry] && row.filename == Base(row.originalPath)
      && exists j :: 0 <= j < i && Judges(ss[j], acts[j], row.entry, ss[i].hist.captured[row.entry]) && acts[j].verdict == row.verdict
  {
    RowJudged(ss, acts, i, r);
    RunInv(ss, acts, i);
  }

  lemma {:induction false} RowJudged(ss: seq<State>, acts: seq<Action>, i: nat, r: RowId)
    requires Run(ss, acts) && i < |ss| && r in ss[i].table.rows
    ensures var row := ss[i].table.rows[r];
      && row.entry in ss[i].hist.captured
      && exists j :: 0 <= j < i && Judges(ss[j], acts[j], row.entry, ss[i].hist.captured[row.entry]) && acts[j].verdict == row.verdict
  {
    RunInv(ss, acts, i - 1);
    CapturedStays(ss[i - 1], acts[i - 1]);
    if r in ss[i - 1].table.rows {
      RowJudged(ss, acts, i - 1, r);
      RowKeepsVerdict(ss[i - 1], acts[i - 1], r);
    } else {
      NewRowIsJudged(ss[i - 1], acts[i - 1], r);
    }
  }

  lemma RowKeepsVerdict(s: State, a: Action, r: RowId)
    requires Enabled(s, a) && RowsGood(s.table, s.hist) && r in s.table.rows
    ensures var rows := Apply(s, a).table.rows;
      r in rows && rows[r].entry == s.table.rows[r].entry && rows[r].verdict == s.table.rows[r].verdict
  {
    if !a.Handle? && !a.Decide? {
      TableSame(s, a);
    }
  }

  lemma NewRowIsJudged(s: State, a: Action, r: RowId)
    requires Enabled(s, a) && MessagesGood(s.net, s.hist, s.table) && r !in s.table.rows && r in Apply(s, a).table.rows
    ensures a.Handle? && Apply(s, a).hist.captured == s.hist.captured
    ensures var row := Apply(s, a).table.rows[r];
      && row.entry in s.hist.captured && Judges(s, a, row.entry, s.hist.captured[row.entry]) && a.verdict == row.verdict
  {
  }

  lemma {:induction false} ApprovedWhen(ss: seq<State>, acts: seq<Action>, i: nat, r: RowId)
    requires Run(ss, acts) && i < |ss| && r in ss[i].table.rows && ss[i].table.rows[r].status.Approved?
    ensures exists j :: 0 <= j < i && acts[j] == Decide(r, Approved)
  {
    var s, a := ss[i - 1], acts[i - 1];
    if r in s.table.rows && s.table.rows[r].status.Approved? {
      ApprovedWhen(ss, acts, i - 1, r);
    } else {
      assert a == Decide(r, Approved);
    }
  }

  /** An admin approved row `r`, which records the backend's verdict on bytes `b` of entry `e`. */
  ghost predicate ApprovedFor(ss: seq<State>, acts: seq<Action>, i: nat, r: RowId, e: EntryId, b: Bytes)
    requires Run(ss, acts) && i < |acts| && r in ss[i].table.rows
  {
    && (exists j :: 0 <= j < i && acts[j] == Decide(r, Approved))
    && (exists j :: 0 <= j < i && Judges(ss[j], acts[j], e, b) && acts[j].verdict == ss[i].table.rows[r].verdict)
  }

  /** What is put back is the captured bytes, and only after the backend answered release to a
      submission of those very bytes of that entry, or after an admin approved the very row
      the entry's meta names: a row for the same path, with the uncertain verdict on those bytes. */
  lemma ReleaseIsAuthorized(ss: seq<State>, acts: seq<Action>, i: nat, e: EntryId, m: Meta)
    requires Run(ss, acts) && i < |acts| && PutsBack(ss[i], acts[i], e, m)
    ensures e in ss[i].hist.origin && m.originalPath == ss[i].hist.origin[e] && ss[i].MetaOf(e) == Readable(m)
    ensures e in ss[i].hist.captured && e in ss[i].disk && ss[i].disk[e].payload == Whole(ss[i].hist.captured[e])
    ensures
      || (exists j :: 0 <= j < i && AnswersRelease(ss[j], acts[j], e, ss[i].hist.captured[e]))
      || (&& m.state.Held? && m.row in ss[i].table.rows
          && ss[i].table.rows[m.row].entry == e && ss[i].table.rows[m.row].originalPath == m.originalPath
          && ss[i].table.rows[m.row].verdict in {Suspicious, Inconclusive}
          && ApprovedFor(ss, acts, i, m.row, e, ss[i].hist.captured[e]))
  {
    RunInv(ss, acts, i);
    assert PcGood(ss[i], acts[i].t);
    if m.state.Held? {
      ApprovedWhen(ss, acts, i, m.row);
      RowWhen(ss, acts, i, m.row);
    } else {
      AnsweredWhen(ss, acts, i, e);
    }
  }

  /** Bytes that were only ever judged Compromised are never put back, whatever anybody approves. */
  lemma CompromisedStays(ss: seq<State>, acts: seq<Action>, i: nat, e: EntryId, m: Meta)
    requires Run(ss, acts) && i < |acts| && e in ss[i].hist.captured
    requires forall j :: 0 <= j < i && Judges(ss[j], acts[j], e, ss[i].hist.captured[e]) ==> acts[j].verdict.Compromised?
    ensures !PutsBack(ss[i], acts[i], e, m)
  {
    if PutsBack(ss[i], acts[i], e, m) {
      ReleaseIsAuthorized(ss, acts, i, e, m);
    }
  }

  lemma {:induction false} TableOnlyGrows(ss: seq<State>, acts: seq<Action>, i: nat, j: nat)
    requires Run(ss, acts) && i <= j < |ss|
    ensures TableGrows(ss[i].table, ss[j].table)
  {
    if i < j {
      TableOnlyGrows(ss, acts, i, j - 1);
      RunInv(ss, acts, j - 1);
      TableStep(ss[j - 1], acts[j - 1]);
    }
  }

  /** A decided row never changes again. */
  lemma DecisionsAreFinal(ss: seq<State>, acts: seq<Action>, i: nat, j: nat, r: RowId)
    requires Run(ss, acts) && i <= j < |ss|
    requires r in ss[i].table.rows && !ss[i].table.rows[r].status.Pending?
    ensures r in ss[j].table.rows && ss[j].table.rows[r] == ss[i].table.rows[r]
  {
    TableOnlyGrows(ss, acts, i, j);
  }

  /** One approval releases at most one entry. */
  lemma OneApprovalOneEntry(ss: seq<State>, acts: seq<Action>, i: nat, j: nat, e: EntryId, f: EntryId, m: Meta, n: Meta)
    requires Run(ss, acts) && i < |acts| && j < |acts|
    requires PutsBack(ss[i], acts[i], e, m) && PutsBack(ss[j], acts[j], f, n)
    requires m.state.Held? && n.state.Held? && m.row == n.row
    ensures e == f
  {
    RunInv(ss, acts, i);
    RunInv(ss, acts, j);
    assert PcGood(ss[i], acts[i].t) && PcGood(ss[j], acts[j].t);
    if i <= j {
      TableOnlyGrows(ss, acts, i, j);
    } else {
      TableOnlyGrows(ss, acts, j, i);
    }
  }

  /** Held entries never share a row, and each names one with its own path and an uncertain verdict. */
  lemma HeldEntriesOwnTheirRows(ss: seq<State>, acts: seq<Action>, i: nat, e: EntryId, f: EntryId)
    requires Run(ss, acts) && i < |ss|
    requires ss[i].MetaOf(e).Readable? && ss[i].MetaOf(e).meta.state.Held?
    requires ss[i].MetaOf(f).Readable? && ss[i].MetaOf(f).meta.state.Held?
    ensures ss[i].MetaOf(e).meta.row == ss[i].MetaOf(f).meta.row ==> e == f
    ensures var m := ss[i].MetaOf(e).meta;
      m.row in ss[i].table.rows && ss[i].table.rows[m.row].originalPath == m.originalPath
      && ss[i].table.rows[m.row].verdict in {Suspicious, Inconclusive}
  {
    RunInv(ss, acts, i);
  }

  lemma {:induction false} DeliveredWhen(ss: seq<State>, acts: seq<Action>, i: nat, e: EntryId)
    requires Run(ss, acts) && i < |ss| && e in ss[i].hist.delivered
    ensures exists j, m :: 0 <= j < i && PutsBack(ss[j], acts[j], e, m) && !acts[j].phase.Copying?
  {
    var s, a := ss[i - 1], acts[i - 1];
    if e in s.hist.delivered {
      DeliveredWhen(ss, acts, i - 1, e);
    } else {
      assert PutsBack(s, a, e, s.Pc(a.t).meta);
    }
  }

  /** A captured payload stays whole in quarantine until a release has completed it at its path. */
  lemma PayloadIsKept(ss: seq<State>, acts: seq<Action>, i: nat, e: EntryId)
    requires Run(ss, acts) && i < |ss| && e in ss[i].hist.captured
    ensures
      || (e in ss[i].disk && ss[i].disk[e].payload == Whole(ss[i].hist.captured[e]))
      || (exists j, m :: 0 <= j < i && PutsBack(ss[j], acts[j], e, m) && !acts[j].phase.Copying?)
  {
    RunInv(ss, acts, i);
    if e in ss[i].hist.delivered {
      DeliveredWhen(ss, acts, i, e);
    }
  }

  /** RemoveAll is reached only when the releasing move has returned nil. */
  lemma RemovalFollowsTheMove(ss: seq<State>, acts: seq<Action>, i: nat)
    requires Run(ss, acts) && i < |acts| && (acts[i].RemoveMeta? || acts[i].RemoveDir?)
    ensures HasLeft(ss[i], ss[i].Pc(acts[i].t).entry)
    ensures exists j, m :: 0 <= j < i && PutsBack(ss[j], acts[j], ss[i].Pc(acts[i].t).entry, m) && !acts[j].phase.Copying?
  {
    RunInv(ss, acts, i);
    assert PcGood(ss[i], acts[i].t);
    DeliveredWhen(ss, acts, i, ss[i].Pc(acts[i].t).entry);
  }

  // ----- Entries only move forward -----

  datatype Stage =
    | Unseen | BeingCaptured | BecomingPending | IsPending | BecomingHeld | IsHeld | BecomingBlocked
    | IsBlocked | DeadEnd | Leaving | Gone

  function Rank(g: Stage): nat {
    match g
    case Unseen => 0
    case BeingCaptured => 1
    case BecomingPending => 2
    case IsPending => 3
    case BecomingHeld => 4
    case IsHeld => 5
    case BecomingBlocked => 6
    case IsBlocked => 7
    case DeadEnd => 7
    case Leaving => 7
    case Gone => 8
  }

  ghost predicate Owns(s: State, t: Tid, e: EntryId) {
    !s.Pc(t).Idle? && s.Pc(t).entry == e
  }

  /** What the thread working on an entry is doing, Idle when there is none. */
  ghost function OwnerPc(s: State, e: EntryId): Pc {
    if t: Tid :| Owns(s, t, e) then s.Pc(t) else Idle
  }

  /** Where an entry is. An unreadable or missing meta that no thread is working on is a dead end. */
  ghost function StageOf(s: State, e: EntryId): Stage {
    if e !in s.hist.origin then Unseen
    else if e !in s.disk then Gone
    else StageFrom(s.disk[e].metaFile, HasLeft(s, e), OwnerPc(s, e))
  }

  ghost function StageFrom(f: MetaFile, left: bool, owner: Pc): Stage {
    match f
    case NoMeta => if left then Leaving else if owner.Idle? then DeadEnd else BeingCaptured
    case Torn =>
      if !owner.Writing? then DeadEnd
      else (match owner.meta.state
            case PendingSubmit => BecomingPending
            case Held => BecomingHeld
            case Blocked => BecomingBlocked)
    case Readable(m) =>
      match m.state
      case PendingSubmit => IsPending
      case Held => IsHeld
      case Blocked => IsBlocked
  }

  lemma OwnerIs(s: State, t: Tid, e: EntryId)
    requires Inv(s) && Owns(s, t, e)
    ensures OwnerPc(s, e) == s.Pc(t)
  {
  }

  lemma UntouchedOwner(s: State, a: Action, e: EntryId)
    requires Inv(s) && Enabled(s, a) && !a.Crash? && e !in Mine(s, a)
    ensures OwnerPc(Apply(s, a), e) == OwnerPc(s, e)
  {
    var s' := Apply(s, a);
    InvStep(s, a);
    forall t: Tid | Owns(s, t, e) || Owns(s', t, e) ensures Owns(s, t, e) && Owns(s', t, e) && s'.Pc(t) == s.Pc(t) {
      if Actor(a) == Some(t) {
        ActorStep(s, a);
      } else {
        OthersStay(s, a, t);
      }
    }
    if t: Tid :| Owns(s, t, e) {
      OwnerIs(s, t, e);
      OwnerIs(s', t, e);
    }
  }

  lemma SameStage(s: State, s': State, mine: set<EntryId>, e: EntryId)
    requires Grows(s, s', mine) && e !in mine && OwnerPc(s', e) == OwnerPc(s, e)
    ensures StageOf(s', e) == StageOf(s, e)
  {
  }

  /** Entries a step does not touch keep their stage. */
  lemma UntouchedStage(s: State, a: Action, e: EntryId)
    requires Inv(s) && Enabled(s, a) && !a.Crash? && e !in Mine(s, a)
    ensures StageOf(Apply(s, a), e) == StageOf(s, e)
  {
    UntouchedOwner(s, a, e);
    StepGrows(s, a);
    SameStage(s, Apply(s, a), Mine(s, a), e);
  }

  lemma TouchedOwner(s: State, a: Action, e: EntryId)
    requires Inv(s) && Enabled(s, a) && Actor(a).Some? && e in Mine(s, a)
    ensures OwnerPc(Apply(s, a), e) == Apply(s, a).Pc(Actor(a).value)
  {
    var s', t := Apply(s, a), Actor(a).value;
    InvStep(s, a);
    ActorStep(s, a);
    if s'.Pc(t).Idle? {
      forall u: Tid ensures !Owns(s', u, e) {
        if u != t {
          OthersStay(s, a, u);
          if !s.Pc(u).Idle? {
            NotOwned(s, a, u);
          }
        }
      }
    } else {
      OwnerIs(s', t, e);
    }
  }

  /** Later, or where it is; blocked, given up and gone are final. */
  ghost predicate Forward(g: Stage, g': Stage) {
    g == g' || (Rank(g) < Rank(g') && !g.IsBlocked? && !g.DeadEnd? && !g.Gone?)
  }

  ghost predicate ActsOn(s: State, a: Action, e: EntryId) {
    && Enabled(s, a) && Actor(a).Some? && e in Mine(s, a) && PcGood(s, Actor(a).value)
    && (!s.Pc(Actor(a).value).Idle? ==> OwnerPc(s, e) == s.Pc(Actor(a).value))
    && OwnerPc(Apply(s, a), e) == Apply(s, a).Pc(Actor(a).value)
  }

  lemma CaptureForward(s: State, a: Action, e: EntryId)
    requires ActsOn(s, a, e) && PlacedGood(s.hist, s.table)
    requires a.StartCapture? || a.CaptureMove? || a.CaptureDone? || a.BeginWrite? || a.FinishWrite?
    ensures Forward(StageOf(s, e), StageOf(Apply(s, a), e))
  {
  }

  lemma SubmitForward(s: State, a: Action, e: EntryId)
    requires ActsOn(s, a, e)
    requires a.SweepTake? || a.SweepEnd? || a.Send? || a.Receive? || a.SeeHeld? || a.GetStatus? || a.BeginRelease?
    ensures Forward(StageOf(s, e), StageOf(Apply(s, a), e))
  {
  }

  lemma ReleaseForward(s: State, a: Action, e: EntryId)
    requires ActsOn(s, a, e)
    requires a.ReleaseMove? || a.ReleaseDone? || a.RemoveMeta? || a.RemoveDir?
    ensures Forward(StageOf(s, e), StageOf(Apply(s, a), e))
  {
  }

  lemma AbandonForward(s: State, a: Action, e: EntryId)
    requires ActsOn(s, a, e) && a.Abandon?
    ensures Forward(StageOf(s, e), StageOf(Apply(s, a), e))
  {
  }

  lemma TouchedForward(s: State, a: Action, e: EntryId)
    requires ActsOn(s, a, e) && PlacedGood(s.hist, s.table)
    ensures Forward(StageOf(s, e), StageOf(Apply(s, a), e))
  {
    match a
    case StartCapture(_, _, _, _) | CaptureMove(_, _) | CaptureDone(_) | BeginWrite(_) | FinishWrite(_) => CaptureForward(s, a, e);
    case SweepTake(_) | SweepEnd | Send(_, _, _) | Receive(_) | SeeHeld(_) | GetStatus | BeginRelease(_) => SubmitForward(s, a, e);
    case ReleaseMove(_, _) | ReleaseDone(_) | RemoveMeta(_) | RemoveDir(_) => ReleaseForward(s, a, e);
    case Abandon(_) => AbandonForward(s, a, e);
  }

  lemma TouchedStage(s: State, a: Action, e: EntryId)
    requires Inv(s) && Enabled(s, a) && Actor(a).Some? && e in Mine(s, a)
    ensures Forward(StageOf(s, e), StageOf(Apply(s, a), e))
  {
    TouchedOwner(s, a, e);
    var t := Actor(a).value;
    assert PcGood(s, t);
    if !s.Pc(t).Idle? {
      OwnerIs(s, t, e);
    }
    TouchedForward(s, a, e);
  }

  /** Every step leaves every entry where it is or moves it to a later stage; as ranks end
      at 8, an entry changes its stage at most eight times. */
  lemma StagesMoveForward(s: State, a: Action, e: EntryId)
    requires Inv(s) && Enabled(s, a)
    ensures Forward(StageOf(s, e), StageOf(Apply(s, a), e))
  {
    if a.Crash? {
      assert forall t: Tid :: !Owns(Apply(s, a), t, e);
    } else if e in Mine(s, a) {
      TouchedStage(s, a, e);
    } else {
      UntouchedStage(s, a, e);
    }
  }

  /** How often an entry has changed its stage in the first `n` steps of a run. */
  ghost function StageChanges(ss: seq<State>, n: nat, e: EntryId): nat
    requires n < |ss|
  {
    if n == 0 then 0
    else StageChanges(ss, n - 1, e) + if StageOf(ss[n], e) != StageOf(ss[n - 1], e) then 1 else 0
  }

  /** Over a whole run an entry changes its stage at most eight times. */
  lemma {:induction false} FewStageChanges(ss: seq<State>, acts: seq<Action>, n: nat, e: EntryId)
    requires Run(ss, acts) && n < |ss|
    ensures StageChanges(ss, n, e) <= Rank(StageOf(ss[n], e)) <= 8
  {
    if n > 0 {
      FewStageChanges(ss, acts, n - 1, e);
      RunMovesForward(ss, acts, n - 1, e);
    }
  }

  lemma RunMovesForward(ss: seq<State>, acts: seq<Action>, i: nat, e: EntryId)
    requires Run(ss, acts) && i < |acts|
    ensures Forward(StageOf(ss[i], e), StageOf(ss[i + 1], e))
  {
    RunInv(ss, acts, i);
    StagesMoveForward(ss[i], acts[i], e);
  }

  // ----- Rows that no entry names -----

  /** The thread holds the answer that names row `r`, on its way to the meta. */
  predicate Carries(pc: Pc, r: RowId) {
    || (pc.Answered? && pc.reply.decision.Hold? && pc.reply.row == r)
    || (pc.Writing? && pc.meta.state.Held? && pc.meta.row == r)
  }

  ghost predicate InReply(s: State, r: RowId) {
    exists q :: q in s.net.replies && s.net.replies[q].decision.Hold? && s.net.replies[q].row == r
  }

  ghost predicate InThread(s: State, r: RowId) {
    exists t: Tid :: Carries(s.Pc(t), r)
  }

  /** A held meta that names row `r` is finished. */
  ghost predicate Names(s: State, a: Action, r: RowId) {
    a.FinishWrite? && Carries(s.Pc(a.t), r)
  }

  /** The thread that holds the answer dies, or gives up writing the meta. */
  ghost predicate Forgets(s: State, a: Action, r: RowId) {
    exists t: Tid :: ForgetsBy(s, a, r, t)
  }

  ghost predicate ForgetsBy(s: State, a: Action, r: RowId, t: Tid) {
    Carries(s.Pc(t), r) && (a.Crash? || a == Abandon(t))
  }

  lemma ReplyStep(s: State, a: Action, r: RowId)
    requires Inv(s) && Enabled(s, a) && (InReply(s, r) || (r !in s.table.rows && r in Apply(s, a).table.rows))
    ensures InReply(Apply(s, a), r) || InThread(Apply(s, a), r)
  {
    var s' := Apply(s, a);
    if InReply(s, r) {
      var q :| q in s.net.replies && s.net.replies[q].decision.Hold? && s.net.replies[q].row == r;
      if a.Receive? && s.Pc(a.t).request == q {
        assert Carries(s'.Pc(a.t), r);
      } else {
        RepliesStay(s, a, q);
      }
    } else {
      assert a.Handle? && s'.net.replies[a.request].row == r;
    }
  }

  lemma RepliesStay(s: State, a: Action, q: RequestId)
    requires Enabled(s, a) && q in s.net.replies && !(a.Receive? && s.Pc(a.t).request == q) && q !in s.net.requests
    ensures q in Apply(s, a).net.replies && Apply(s, a).net.replies[q] == s.net.replies[q]
  {
  }

  lemma ThreadStep(s: State, a: Action, r: RowId, t: Tid)
    requires Inv(s) && Enabled(s, a) && Carries(s.Pc(t), r)
    ensures InThread(Apply(s, a), r) || Names(s, a, r) || Forgets(s, a, r)
  {
    if a.Crash? || a == Abandon(t) {
      assert ForgetsBy(s, a, r, t);
    } else if Actor(a) == Some(t) {
      assert !Names(s, a, r) ==> Carries(Apply(s, a).Pc(t), r);
    } else {
      OthersStay(s, a, t);
      assert Carries(Apply(s, a).Pc(t), r);
    }
  }

  /** The answer that names row `r` waits to be received or written down. */
  ghost predicate Pends(s: State, r: RowId) {
    InReply(s, r) || InThread(s, r)
  }

  ghost predicate Named(ss: seq<State>, acts: seq<Action>, i: nat, r: RowId)
    requires i <= |acts| < |ss|
  {
    exists j :: 0 <= j < i && Names(ss[j], acts[j], r)
  }

  ghost predicate Forgotten(ss: seq<State>, acts: seq<Action>, i: nat, r: RowId)
    requires i <= |acts| < |ss|
  {
    exists j :: 0 <= j < i && Forgets(ss[j], acts[j], r)
  }

  lemma AnswerStep(s: State, a: Action, r: RowId)
    requires Inv(s) && Enabled(s, a)
    requires Pends(s, r) || (r !in s.table.rows && r in Apply(s, a).table.rows)
    ensures Pends(Apply(s, a), r) || Names(s, a, r) || Forgets(s, a, r)
  {
    if InThread(s, r) {
      var t: Tid :| Carries(s.Pc(t), r);
      ThreadStep(s, a, r, t);
    } else {
      ReplyStep(s, a, r);
    }
  }

  ghost predicate Bears(reply: Reply, r: RowId) {
    reply.decision.Hold? && reply.row == r
  }

  /** The answer that names a row is in one place at a time. */
  ghost predicate OneHolder(s: State, r: RowId) {
    && (forall p, q :: p in s.net.replies && q in s.net.replies && Bears(s.net.replies[p], r) && Bears(s.net.replies[q], r) ==> p == q)
    && !(InReply(s, r) && InThread(s, r))
  }

  lemma CarrierKnows(s: State, r: RowId, t: Tid)
    requires Inv(s) && Carries(s.Pc(t), r)
    ensures RowOf(s.table, r, s.Pc(t).entry)
  {
    assert PcGood(s, t);
  }

  lemma OneCarrier(s: State, r: RowId, t: Tid, u: Tid)
    requires Inv(s) && Carries(s.Pc(t), r) && Carries(s.Pc(u), r)
    ensures t == u
  {
    CarrierKnows(s, r, t);
    CarrierKnows(s, r, u);
  }

  /** A thread comes to carry a row only by receiving the reply that bears it. */
  lemma CarriesFrom(s: State, a: Action, r: RowId, t: Tid)
    requires Inv(s) && Enabled(s, a) && Carries(Apply(s, a).Pc(t), r)
    ensures Carries(s.Pc(t), r) || (a == Receive(t) && Bears(s.net.replies[s.Pc(t).request], r))
    ensures a != FinishWrite(t) && a != Abandon(t) && !a.Crash?
  {
    if Actor(a) != Some(t) && !a.Crash? {
      OthersStay(s, a, t);
    }
  }

  /** A reply that bears a row is there already, or is the one that comes with the new row. */
  lemma BearsFrom(s: State, a: Action, r: RowId, q: RequestId)
    requires Inv(s) && Enabled(s, a) && q in Apply(s, a).net.replies && Bears(Apply(s, a).net.replies[q], r)
    ensures (q in s.net.replies && Bears(s.net.replies[q], r) && !(a.Receive? && s.Pc(a.t).request == q))
      || (a.Handle? && a.request == q && r == s.table.next)
  {
    RepliesFrom(s, a, q);
  }

  lemma RepliesFrom(s: State, a: Action, q: RequestId)
    requires Enabled(s, a) && q in Apply(s, a).net.replies
    ensures a.Receive? ==> s.Pc(a.t).request != q
    ensures
      || (a.Handle? && a.request == q && Apply(s, a).net.replies[q].row == s.table.next)
      || (q in s.net.replies && Apply(s, a).net.replies[q] == s.net.replies[q])
  {
  }

  lemma FreshRow(s: State, r: RowId)
    requires Inv(s) && r !in s.table.rows
    ensures !InReply(s, r) && !InThread(s, r)
  {
    if t: Tid :| Carries(s.Pc(t), r) {
      CarrierKnows(s, r, t);
    }
  }

  lemma OneHolderStep(s: State, a: Action, r: RowId)
    requires Inv(s) && Enabled(s, a) && OneHolder(s, r)
    ensures OneHolder(Apply(s, a), r)
  {
    var s' := Apply(s, a);
    if r !in s.table.rows {
      FreshRow(s, r);
    }
    assert s.table.next !in s.table.rows;
    forall p, q | p in s'.net.replies && q in s'.net.replies && Bears(s'.net.replies[p], r) && Bears(s'.net.replies[q], r)
      ensures p == q
    {
      BearsFrom(s, a, r, p);
      BearsFrom(s, a, r, q);
    }
    if InReply(s', r) && InThread(s', r) {
      var q :| q in s'.net.replies && s'.net.replies[q].decision.Hold? && s'.net.replies[q].row == r;
      var t: Tid :| Carries(s'.Pc(t), r);
      BearsFrom(s, a, r, q);
      CarriesFrom(s, a, r, t);
    }
  }

  lemma {:induction false} RunOneHolder(ss: seq<State>, acts: seq<Action>, i: nat, r: RowId)
    requires Run(ss, acts) && i < |ss|
    ensures OneHolder(ss[i], r)
  {
    if i > 0 {
      RunOneHolder(ss, acts, i - 1, r);
      RunInv(ss, acts, i - 1);
      OneHolderStep(ss[i - 1], acts[i - 1], r);
    }
  }

  lemma StillCarried(s: State, a: Action, r: RowId, t: Tid)
    requires Inv(s) && Enabled(s, a) && OneHolder(s, r) && Carries(Apply(s, a).Pc(t), r)
    ensures Pends(s, r) && !Names(s, a, r) && !Forgets(s, a, r)
  {
    CarriesFrom(s, a, r, t);
    if Carries(s.Pc(t), r) {
      forall u: Tid ensures !ForgetsBy(s, a, r, u) {
        if Carries(s.Pc(u), r) {
          OneHolderThread(s, a, r, t, u);
        }
      }
      if a.FinishWrite? && Carries(s.Pc(a.t), r) {
        OneHolderThread(s, a, r, t, a.t);
      }
    } else {
      assert InReply(s, r);
      FreshIsQuiet(s, a, r);
    }
  }

  lemma StillInReply(s: State, a: Action, r: RowId)
    requires Inv(s) && Enabled(s, a) && OneHolder(s, r) && r in s.table.rows && InReply(Apply(s, a), r)
    ensures Pends(s, r) && !Names(s, a, r) && !Forgets(s, a, r)
  {
    var s' := Apply(s, a);
    var q :| q in s'.net.replies && s'.net.replies[q].decision.Hold? && s'.net.replies[q].row == r;
    BearsFrom(s, a, r, q);
    assert InReply(s, r);
    FreshIsQuiet(s, a, r);
  }

  /** An answer that is written down or forgotten no longer waits. */
  lemma PendingEnds(s: State, a: Action, r: RowId)
    requires Inv(s) && Enabled(s, a) && OneHolder(s, r) && r in s.table.rows
    ensures Pends(Apply(s, a), r) ==> Pends(s, r) && !Names(s, a, r) && !Forgets(s, a, r)
    ensures Names(s, a, r) || Forgets(s, a, r) ==> Pends(s, r)
    ensures !(Names(s, a, r) && Forgets(s, a, r))
  {
    if InReply(Apply(s, a), r) {
      StillInReply(s, a, r);
    } else if t: Tid :| Carries(Apply(s, a).Pc(t), r) {
      StillCarried(s, a, r, t);
    }
  }

  lemma OneHolderThread(s: State, a: Action, r: RowId, t: Tid, u: Tid)
    requires Inv(s) && Enabled(s, a) && OneHolder(s, r) && Carries(Apply(s, a).Pc(t), r) && Carries(s.Pc(u), r)
    ensures t == u && a != FinishWrite(u) && a != Abandon(u) && !a.Crash?
  {
    CarriesFrom(s, a, r, t);
    if Carries(s.Pc(t), r) {
      OneCarrier(s, r, t, u);
    }
  }

  lemma RowsStay(s: State, a: Action, r: RowId)
    requires Inv(s) && Enabled(s, a) && r in s.table.rows
    ensures r in Apply(s, a).table.rows
  {
    RowKeepsVerdict(s, a, r);
  }

  /** Of every hold row exactly one is true: its answer has not been received, or not been
      written down yet; a finished meta has named it; or the answer was received and then
      forgotten, and no entry ever names the row. OrphanedForGood below says which answers
      are never received. */
  lemma {:induction false} RowsAreNamedUnlessForgotten(ss: seq<State>, acts: seq<Action>, i: nat, r: RowId)
    requires Run(ss, acts) && i < |ss| && r in ss[i].table.rows
    ensures Pends(ss[i], r) <==> !Named(ss, acts, i, r) && !Forgotten(ss, acts, i, r)
    ensures !(Named(ss, acts, i, r) && Forgotten(ss, acts, i, r))
  {
    var last := i - 1;
    RunInv(ss, acts, last);
    RunOneHolder(ss, acts, last, r);
    NamedStep(ss, acts, last, r);
    if r in ss[last].table.rows {
      RowsAreNamedUnlessForgotten(ss, acts, last, r);
      PendingEnds(ss[last], acts[last], r);
    } else {
      NeverBefore(ss, acts, last, r);
      FreshRow(ss[last], r);
      FreshIsQuiet(ss[last], acts[last], r);
    }
    if r !in ss[last].table.rows || Pends(ss[last], r) {
      AnswerStep(ss[last], acts[last], r);
    }
  }

  lemma NamedStep(ss: seq<State>, acts: seq<Action>, i: nat, r: RowId)
    requires i < |acts| < |ss|
    ensures Named(ss, acts, i + 1, r) <==> Named(ss, acts, i, r) || Names(ss[i], acts[i], r)
    ensures Forgotten(ss, acts, i + 1, r) <==> Forgotten(ss, acts, i, r) || Forgets(ss[i], acts[i], r)
  {
  }

  lemma FreshIsQuiet(s: State, a: Action, r: RowId)
    requires !InThread(s, r)
    ensures !Names(s, a, r) && !Forgets(s, a, r)
  {
    forall t: Tid ensures !ForgetsBy(s, a, r, t) {
    }
  }

  lemma {:induction false} NeverBefore(ss: seq<State>, acts: seq<Action>, i: nat, r: RowId)
    requires Run(ss, acts) && i < |ss| && r !in ss[i].table.rows
    ensures !Named(ss, acts, i, r) && !Forgotten(ss, acts, i, r)
  {
    if i > 0 {
      var last := i - 1;
      RunInv(ss, acts, last);
      if r in ss[last].table.rows {
        RowsStay(ss[last], acts[last], r);
      }
      NeverBefore(ss, acts, last, r);
      FreshRow(ss[last], r);
      FreshIsQuiet(ss[last], acts[last], r);
      NamedStep(ss, acts, last, r);
    }
  }

  lemma HeldWritten(s: State, a: Action, e: EntryId)
    requires Enabled(s, a) && WritesMeta(a) && Apply(s, a).MetaOf(e).Readable? && Apply(s, a).MetaOf(e).meta.state.Held?
    ensures s.MetaOf(e) == Apply(s, a).MetaOf(e) || Names(s, a, Apply(s, a).MetaOf(e).meta.row)
  {
  }

  lemma HeldStep(s: State, a: Action, e: EntryId)
    requires Inv(s) && Enabled(s, a) && Apply(s, a).MetaOf(e).Readable? && Apply(s, a).MetaOf(e).meta.state.Held?
    ensures s.MetaOf(e) == Apply(s, a).MetaOf(e) || Names(s, a, Apply(s, a).MetaOf(e).meta.row)
  {
    if WritesMeta(a) {
      HeldWritten(s, a, e);
    } else {
      if Actor(a).Some? {
        assert PcGood(s, Actor(a).value);
      }
      MetaStays(s, a, e);
    }
  }

  /** A held meta has been written as such, and so has the ground of every release by a row. */
  lemma {:induction false} HeldWhen(ss: seq<State>, acts: seq<Action>, i: nat, e: EntryId)
    requires Run(ss, acts) && i < |ss| && ss[i].MetaOf(e).Readable? && ss[i].MetaOf(e).meta.state.Held?
    ensures Named(ss, acts, i, ss[i].MetaOf(e).meta.row)
  {
    var last, row := i - 1, ss[i].MetaOf(e).meta.row;
    RunInv(ss, acts, last);
    HeldStep(ss[last], acts[last], e);
    if !Names(ss[last], acts[last], row) {
      HeldWhen(ss, acts, last, e);
    }
  }

  /** Approving a row that no meta ever named releases nothing. */
  lemma UnnamedReleasesNothing(ss: seq<State>, acts: seq<Action>, i: nat, e: EntryId, m: Meta)
    requires Run(ss, acts) && i < |acts| && PutsBack(ss[i], acts[i], e, m) && m.state.Held?
    ensures Named(ss, acts, i, m.row)
  {
    RunInv(ss, acts, i);
    assert PcGood(ss[i], acts[i].t);
    HeldWhen(ss, acts, i, e);
  }

  predicate Awaits(pc: Pc, q: RequestId) {
    pc.Waiting? && pc.request == q
  }

  ghost predicate Awaited(s: State, q: RequestId) {
    exists t: Tid :: Awaits(s.Pc(t), q)
  }

  predicate Known(s: State, q: RequestId) {
    q in s.net.requests || q in s.net.replies
  }

  /** The thread that waits for the answer to `q` dies, or gives up. */
  ghost predicate Leaves(s: State, a: Action, q: RequestId) {
    exists t: Tid :: LeavesBy(s, a, q, t)
  }

  ghost predicate LeavesBy(s: State, a: Action, q: RequestId, t: Tid) {
    Awaits(s.Pc(t), q) && (a.Crash? || a == Abandon(t))
  }

  ghost predicate Left(ss: seq<State>, acts: seq<Action>, i: nat, q: RequestId)
    requires i <= |acts| < |ss|
  {
    exists j :: 0 <= j < i && Leaves(ss[j], acts[j], q)
  }

  lemma OneWaits(s: State, q: RequestId, t: Tid, u: Tid)
    requires Inv(s) && Known(s, q) && Awaits(s.Pc(t), q) && Awaits(s.Pc(u), q)
    ensures t == u
  {
    assert PcGood(s, t) && PcGood(s, u);
  }

  lemma AwaitedWasSent(s: State, q: RequestId, t: Tid)
    requires Inv(s) && Awaits(s.Pc(t), q)
    ensures q < s.net.next
  {
    assert PcGood(s, t);
  }

  lemma NobodyWaitsYet(s: State, a: Action, q: RequestId)
    requires Inv(s) && q >= s.net.next
    ensures !Awaited(s, q) && !Known(s, q) && !Leaves(s, a, q)
  {
    forall t: Tid ensures !Awaits(s.Pc(t), q) {
      if Awaits(s.Pc(t), q) {
        AwaitedWasSent(s, q, t);
      }
    }
  }

  lemma NextGrows(s: State, a: Action)
    requires Enabled(s, a)
    ensures s.net.next <= Apply(s, a).net.next
  {
  }

  /** A thread comes to wait for an answer only by sending. */
  lemma AwaitsFrom(s: State, a: Action, q: RequestId, t: Tid)
    requires Enabled(s, a) && Awaits(Apply(s, a).Pc(t), q)
    ensures !a.Crash? && a != Abandon(t) && (Awaits(s.Pc(t), q) || (a.Send? && a.t == t && q == s.net.next))
  {
    if Actor(a) != Some(t) && !a.Crash? {
      OthersStay(s, a, t);
    }
  }

  /** ... and stops only by receiving the answer, or by dying or giving up. */
  lemma KeepsWaiting(s: State, a: Action, q: RequestId, t: Tid)
    requires Enabled(s, a) && Awaits(s.Pc(t), q) && !LeavesBy(s, a, q, t) && a != Receive(t)
    ensures Awaits(Apply(s, a).Pc(t), q)
  {
    if Actor(a) != Some(t) {
      OthersStay(s, a, t);
    }
  }

  lemma KnownFrom(s: State, a: Action, q: RequestId)
    requires Inv(s) && Enabled(s, a) && Known(Apply(s, a), q)
    ensures Known(s, q) || (a.Send? && q == s.net.next)
    ensures a.Receive? ==> q != s.Pc(a.t).request
  {
  }

  lemma AwaitStep(s: State, a: Action, q: RequestId)
    requires Inv(s) && Enabled(s, a) && Known(Apply(s, a), q) && Known(s, q)
    ensures Awaited(Apply(s, a), q) <==> Awaited(s, q) && !Leaves(s, a, q)
  {
    KnownFrom(s, a, q);
    if t: Tid :| Awaits(Apply(s, a).Pc(t), q) {
      AwaitsFrom(s, a, q, t);
      forall u: Tid | LeavesBy(s, a, q, u) ensures false {
        OneWaits(s, q, t, u);
      }
    }
    if t: Tid :| Awaits(s.Pc(t), q) && !Leaves(s, a, q) {
      KeepsWaiting(s, a, q, t);
    }
  }

  lemma {:induction false} NeverLeft(ss: seq<State>, acts: seq<Action>, i: nat, q: RequestId)
    requires Run(ss, acts) && i < |ss| && q >= ss[i].net.next
    ensures !Left(ss, acts, i, q)
  {
    if i > 0 {
      var last := i - 1;
      RunInv(ss, acts, last);
      NextGrows(ss[last], acts[last]);
      NobodyWaitsYet(ss[last], acts[last], q);
      NeverLeft(ss, acts, last, q);
    }
  }

  /** Of a request under way, or an answer not received, nobody waits if and only if the thread
      that sent it has died or given up: at the client's time limit, or with the daemon. */
  lemma {:induction false} UnheardExactlyIfLeft(ss: seq<State>, acts: seq<Action>, i: nat, q: RequestId)
    requires Run(ss, acts) && i < |ss| && Known(ss[i], q)
    ensures !Awaited(ss[i], q) <==> Left(ss, acts, i, q)
  {
    var last := i - 1;
    RunInv(ss, acts, last);
    KnownFrom(ss[last], acts[last], q);
    if Known(ss[last], q) {
      UnheardExactlyIfLeft(ss, acts, last, q);
      AwaitStep(ss[last], acts[last], q);
    } else {
      NobodyWaitsYet(ss[last], acts[last], q);
      NeverLeft(ss, acts, last, q);
      assert Awaits(ss[i].Pc(acts[last].t), q);
    }
  }

  /** An answer that nobody waits for is never received. */
  lemma {:induction false} UnheardForGood(ss: seq<State>, acts: seq<Action>, i: nat, j: nat, q: RequestId)
    requires Run(ss, acts) && i <= j < |ss| && q in ss[i].net.replies && !Awaited(ss[i], q)
    ensures q in ss[j].net.replies && ss[j].net.replies[q] == ss[i].net.replies[q] && !Awaited(ss[j], q)
  {
    if i < j {
      var last := j - 1;
      UnheardForGood(ss, acts, i, last, q);
      RunInv(ss, acts, last);
      RepliesStay(ss[last], acts[last], q);
      AwaitStep(ss[last], acts[last], q);
    }
  }

  /** The row of an answer whose sender has left is never named by a meta. */
  lemma OrphanedForGood(ss: seq<State>, acts: seq<Action>, i: nat, j: nat, q: RequestId, r: RowId)
    requires Run(ss, acts) && i <= j < |ss| && q in ss[i].net.replies && Bears(ss[i].net.replies[q], r)
    requires Left(ss, acts, i, q)
    ensures r in ss[j].table.rows && !Named(ss, acts, j, r)
  {
    UnheardExactlyIfLeft(ss, acts, i, q);
    UnheardForGood(ss, acts, i, j, q);
    RunInv(ss, acts, j);
    assert InReply(ss[j], r);
    RowsAreNamedUnlessForgotten(ss, acts, j, r);
  }

  // ----- Entries that recovery cannot find -----

  /** Between the last system call of the capturing move and a finished meta. */
  predicate Unrecorded(pc: Pc) {
    (pc.Capturing? && pc.phase.AtDest?) || pc.HasPayload? || pc.Writing?
  }

  ghost predicate Unowned(s: State, e: EntryId) {
    forall t: Tid :: !Owns(s, t, e)
  }

  /** A captured file in quarantine that no thread works on and no listing shows. */
  ghost predicate Stranded(s: State, e: EntryId) {
    e in s.hist.captured && e !in s.hist.delivered && !s.MetaOf(e).Readable? && Unowned(s, e)
  }

  /** The daemon dies, or gives up on a writeMeta, between the capture and a finished meta. */
  ghost predicate Strands(s: State, a: Action, e: EntryId) {
    exists t: Tid :: StrandsBy(s, a, e, t)
  }

  ghost predicate StrandsBy(s: State, a: Action, e: EntryId, t: Tid) {
    Owns(s, t, e) && Unrecorded(s.Pc(t)) && (a.Crash? || a == Abandon(t))
  }

  lemma CrashStrands(s: State, e: EntryId)
    requires Inv(s) && Enabled(s, Crash) && e in s.hist.captured && e !in s.hist.delivered
    ensures Stranded(Apply(s, Crash), e) <==> Stranded(s, e) || Strands(s, Crash, e)
  {
    assert Unowned(Apply(s, Crash), e);
    if t: Tid :| Owns(s, t, e) {
      assert PcGood(s, t);
      assert StrandsBy(s, Crash, e, t) <==> Unrecorded(s.Pc(t));
    }
  }

  lemma OthersStrandNone(s: State, a: Action, e: EntryId)
    requires Inv(s) && Enabled(s, a) && !a.Crash? && e !in Mine(s, a)
    ensures Stranded(Apply(s, a), e) <==> Stranded(s, e)
    ensures !Strands(s, a, e)
  {
    var s' := Apply(s, a);
    StepGrows(s, a);
    forall t: Tid ensures (Owns(s', t, e) <==> Owns(s, t, e)) && !StrandsBy(s, a, e, t) {
      NotMineStays(s, a, e, t);
    }
  }

  lemma NotMineStays(s: State, a: Action, e: EntryId, t: Tid)
    requires Inv(s) && Enabled(s, a) && !a.Crash? && e !in Mine(s, a)
    ensures (Owns(Apply(s, a), t, e) <==> Owns(s, t, e)) && !StrandsBy(s, a, e, t)
  {
    if Actor(a) == Some(t) {
      ActorStep(s, a);
    } else {
      OthersStay(s, a, t);
    }
  }

  lemma OwnStrands(s: State, a: Action, e: EntryId)
    requires Inv(s) && Enabled(s, a) && Actor(a).Some? && e in Mine(s, a)
    requires e in Apply(s, a).hist.captured && e !in Apply(s, a).hist.delivered
    ensures Stranded(Apply(s, a), e) <==> Strands(s, a, e)
    ensures !Stranded(s, e)
  {
    var s', t := Apply(s, a), Actor(a).value;
    assert PcGood(s, t);
    ActorStep(s, a);
    forall u: Tid | u != t ensures !Owns(s, u, e) && !Owns(s', u, e) {
      OthersStay(s, a, u);
      if !s.Pc(u).Idle? {
        NotOwned(s, a, u);
      }
    }
    assert Strands(s, a, e) <==> StrandsBy(s, a, e, t);
    if Captures(a) {
      CaptureStrands(s, a, e);
    } else {
      SubmitStrands(s, a, e);
    }
  }

  /** What the acting thread leaves behind. */
  ghost predicate LeavesBehind(s: State, a: Action, e: EntryId)
    requires Enabled(s, a) && Actor(a).Some?
  {
    var t := Actor(a).value;
    && (s.MetaOf(e).Readable? || Owns(s, t, e))
    && (!Apply(s, a).MetaOf(e).Readable? && !Owns(Apply(s, a), t, e)
        <==> Owns(s, t, e) && Unrecorded(s.Pc(t)) && a == Abandon(t))
  }

  predicate Captures(a: Action) {
    a.StartCapture? || a.CaptureMove? || a.CaptureDone? || a.BeginWrite? || a.FinishWrite? || a.Abandon? || a.RemoveDir?
  }

  lemma CaptureStrands(s: State, a: Action, e: EntryId)
    requires Captures(a)
    requires Enabled(s, a) && Actor(a).Some? && e in Mine(s, a) && PcGood(s, Actor(a).value)
    requires e in Apply(s, a).hist.captured && e !in Apply(s, a).hist.delivered
    requires PayloadsGood(s.disk, s.hist) && (a.StartCapture? ==> e !in s.hist.captured)
    ensures LeavesBehind(s, a, e)
  {
  }

  lemma SubmitStrands(s: State, a: Action, e: EntryId)
    requires !Captures(a)
    requires Enabled(s, a) && Actor(a).Some? && e in Mine(s, a) && PcGood(s, Actor(a).value)
    requires e in Apply(s, a).hist.captured && e !in Apply(s, a).hist.delivered
    requires PayloadsGood(s.disk, s.hist) && (a.StartCapture? ==> e !in s.hist.captured)
    ensures LeavesBehind(s, a, e)
  {
  }

  lemma StepStrands(s: State, a: Action, e: EntryId)
    requires Inv(s) && Enabled(s, a)
    requires e in Apply(s, a).hist.captured && e !in Apply(s, a).hist.delivered
    ensures Stranded(Apply(s, a), e) <==> Stranded(s, e) || Strands(s, a, e)
  {
    if a.Crash? {
      CrashStrands(s, e);
    } else if e in Mine(s, a) {
      OwnStrands(s, a, e);
    } else {
      OthersStrandNone(s, a, e);
    }
  }

  /** A captured file that is not back and has no thread is lost to recovery (its meta is
      unreadable, so neither sweep nor poller ever sees it) if and only if the daemon died, or
      gave up writing its meta, between the capture and a finished meta. */
  lemma {:induction false} StrandedExactlyByLoss(ss: seq<State>, acts: seq<Action>, i: nat, e: EntryId)
    requires Run(ss, acts) && i < |ss| && e in ss[i].hist.captured && e !in ss[i].hist.delivered
    ensures Stranded(ss[i], e) <==> exists j :: 0 <= j < i && Strands(ss[j], acts[j], e)
    ensures Unowned(ss[i], e) ==> (!ss[i].MetaOf(e).Readable? <==> Stranded(ss[i], e))
  {
    if i > 0 {
      RunInv(ss, acts, i - 1);
      StepStrands(ss[i - 1], acts[i - 1], e);
      StepGrows(ss[i - 1], acts[i - 1]);
      if e in ss[i - 1].hist.captured {
        StrandedExactlyByLoss(ss, acts, i - 1, e);
      } else {
        NoneStrandedBefore(ss, acts, i - 1, e);
      }
      assert (exists j :: 0 <= j < i && Strands(ss[j], acts[j], e))
        <==> (exists j :: 0 <= j < i - 1 && Strands(ss[j], acts[j], e)) || Strands(ss[i - 1], acts[i - 1], e);
    }
  }

  lemma UncapturedIsNotStranded(s: State, a: Action, e: EntryId)
    requires Inv(s) && e !in s.hist.captured
    ensures !Strands(s, a, e)
  {
    forall t: Tid ensures !StrandsBy(s, a, e, t) {
      assert PcGood(s, t);
    }
  }

  /** Nothing strands an entry that is not captured yet. */
  lemma {:induction false} NoneStrandedBefore(ss: seq<State>, acts: seq<Action>, i: nat, e: EntryId)
    requires Run(ss, acts) && i < |ss| && e !in ss[i].hist.captured
    ensures !exists j :: 0 <= j < i && Strands(ss[j], acts[j], e)
  {
    if i > 0 {
      RunInv(ss, acts, i - 1);
      StepGrows(ss[i - 1], acts[i - 1]);
      NoneStrandedBefore(ss, acts, i - 1, e);
      UncapturedIsNotStranded(ss[i - 1], acts[i - 1], e);
    }
  }

  // ----- The startup sweep -----

  ghost predicate IsPendingOnDisk(s: State, e: EntryId) {
    s.MetaOf(e).Readable? && s.MetaOf(e).meta.state.PendingSubmit?
  }

  /** While the sweep runs, an entry it has yet to reach is pending exactly if it was at boot. */
  ghost predicate SweepView(boot: State, s: State) {
    && s.daemon.up && s.daemon.sweeping
    && (s.Pc(SWEEPER).Idle? || s.Pc(SWEEPER).entry !in s.daemon.todo)
    && forall e :: e in s.daemon.todo ==> (IsPendingOnDisk(s, e) <==> IsPendingOnDisk(boot, e))
  }

  /** The poller works on entries that are not pending, and leaves them not pending. */
  lemma PollerStep(s: State, a: Action)
    requires Inv(s) && Enabled(s, a) && Actor(a) == Some(POLLER) && !s.Pc(POLLER).Idle?
    ensures !IsPendingOnDisk(s, s.Pc(POLLER).entry) && !IsPendingOnDisk(Apply(s, a), s.Pc(POLLER).entry)
  {
    assert PcGood(s, POLLER);
  }

  lemma DaemonStepsAlong(s: State, a: Action)
    requires Enabled(s, a) && s.daemon.up && !a.Crash? && !a.SweepEnd?
    ensures Apply(s, a).daemon.up && Apply(s, a).daemon.sweeping == s.daemon.sweeping
    ensures Apply(s, a).daemon.todo == if a.SweepTake? then s.daemon.todo - {a.entry} else s.daemon.todo
  {
  }

  lemma SweeperStep(s: State, a: Action)
    requires Inv(s) && Enabled(s, a) && Actor(a) == Some(SWEEPER)
    requires s.Pc(SWEEPER).Idle? || s.Pc(SWEEPER).entry !in s.daemon.todo
    ensures Apply(s, a).Pc(SWEEPER).Idle? || Apply(s, a).Pc(SWEEPER).entry !in Apply(s, a).daemon.todo
  {
    assert PcGood(s, SWEEPER);
  }

  lemma TodoKeeps(s: State, a: Action, e: EntryId)
    requires Inv(s) && Enabled(s, a) && s.daemon.up && s.daemon.sweeping && !a.Crash?
    requires s.Pc(SWEEPER).Idle? || s.Pc(SWEEPER).entry !in s.daemon.todo
    requires e in s.daemon.todo && a != SweepTake(e)
    ensures IsPendingOnDisk(Apply(s, a), e) <==> IsPendingOnDisk(s, e)
  {
    DiskStep(s, a);
    if e in Mine(s, a) && !a.SeeHeld? {
      assert PcGood(s, Actor(a).value);
      PollerStep(s, a);
    }
  }

  lemma SweepViewStep(boot: State, s: State, a: Action)
    requires Inv(s) && Enabled(s, a) && SweepView(boot, s) && !a.Crash? && !a.SweepEnd?
    ensures SweepView(boot, Apply(s, a))
  {
    DaemonStepsAlong(s, a);
    if Actor(a) == Some(SWEEPER) {
      SweeperStep(s, a);
    } else {
      OthersStay(s, a, SWEEPER);
    }
    forall e | e in Apply(s, a).daemon.todo ensures IsPendingOnDisk(Apply(s, a), e) <==> IsPendingOnDisk(boot, e) {
      TodoKeeps(s, a, e);
    }
  }

  /** The sweep that follows boot `i`, up to step `k`. */
  ghost predicate Sweeping(ss: seq<State>, acts: seq<Action>, i: nat, k: nat) {
    && Run(ss, acts) && i < k < |ss| && acts[i] == Boot
    && forall j :: i < j < k ==> !acts[j].Crash? && !acts[j].SweepEnd?
  }

  /** The sweep reaches entry `e` at step `j` and submits it again. */
  ghost predicate Resubmits(ss: seq<State>, acts: seq<Action>, j: nat, e: EntryId)
    requires |ss| == |acts| + 1 && j < |acts|
  {
    acts[j] == SweepTake(e) && Enabled(ss[j], acts[j]) && Apply(ss[j], acts[j]).Pc(SWEEPER).Ready?
  }

  lemma BootView(ss: seq<State>, acts: seq<Action>, i: nat)
    requires Run(ss, acts) && i < |acts| && acts[i] == Boot
    ensures SweepView(ss[i + 1], ss[i + 1])
    ensures forall e :: e in ss[i + 1].daemon.todo <==> e in ss[i].disk && ss[i].disk[e].metaFile.Readable?
    ensures ss[i + 1].disk == ss[i].disk
  {
    RunInv(ss, acts, i);
  }

  lemma ResubmitsIff(ss: seq<State>, acts: seq<Action>, j: nat, e: EntryId)
    requires Run(ss, acts) && j < |acts|
    ensures Resubmits(ss, acts, j, e) <==> acts[j] == SweepTake(e) && IsPendingOnDisk(ss[j], e)
  {
  }

  lemma {:induction false} SweepViewHolds(ss: seq<State>, acts: seq<Action>, i: nat, k: nat)
    requires Sweeping(ss, acts, i, k)
    ensures SweepView(ss[i + 1], ss[k])
  {
    if k == i + 1 {
      BootView(ss, acts, i);
    } else {
      SweepViewHolds(ss, acts, i, k - 1);
      RunInv(ss, acts, k - 1);
      SweepViewStep(ss[i + 1], ss[k - 1], acts[k - 1]);
    }
  }

  /** One step of the sweep, as far as entry `e` is concerned. */
  lemma SweepReaches(ss: seq<State>, acts: seq<Action>, i: nat, k: nat, e: EntryId)
    requires Sweeping(ss, acts, i, k + 1) && i < k
    ensures e in ss[k + 1].daemon.todo <==> e in ss[k].daemon.todo && acts[k] != SweepTake(e)
    ensures Resubmits(ss, acts, k, e) <==> acts[k] == SweepTake(e) && IsPendingOnDisk(ss[i + 1], e)
    ensures Resubmits(ss, acts, k, e) ==> e in ss[k].daemon.todo
  {
    SweepViewHolds(ss, acts, i, k);
    DaemonStepsAlong(ss[k], acts[k]);
    ResubmitsIff(ss, acts, k, e);
  }

  ghost predicate Reached(ss: seq<State>, acts: seq<Action>, i: nat, k: nat, e: EntryId)
    requires |ss| == |acts| + 1 && k <= |acts|
  {
    exists j :: i < j < k && Resubmits(ss, acts, j, e)
  }

  lemma {:induction false} SweepSoFar(ss: seq<State>, acts: seq<Action>, i: nat, k: nat, e: EntryId)
    requires Sweeping(ss, acts, i, k)
    ensures Reached(ss, acts, i, k, e) <==> IsPendingOnDisk(ss[i + 1], e) && e !in ss[k].daemon.todo
  {
    if k == i + 1 {
      BootView(ss, acts, i);
    } else {
      SweepSoFar(ss, acts, i, k - 1, e);
      SweepReaches(ss, acts, i, k - 1, e);
      assert Reached(ss, acts, i, k, e) <==> Reached(ss, acts, i, k - 1, e) || Resubmits(ss, acts, k - 1, e);
    }
  }

  /** A startup sweep that comes to its end has resubmitted exactly the entries whose meta was
      readable and pending_submit at boot. */
  lemma SweepIsExact(ss: seq<State>, acts: seq<Action>, i: nat, k: nat, e: EntryId)
    requires Sweeping(ss, acts, i, k) && k < |acts| && acts[k] == SweepEnd
    ensures (exists j :: i < j < k && Resubmits(ss, acts, j, e)) <==> IsPendingOnDisk(ss[i + 1], e)
  {
    SweepSoFar(ss, acts, i, k, e);
    assert Enabled(ss[k], acts[k]);
  }
}
