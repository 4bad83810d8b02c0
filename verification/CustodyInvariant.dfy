/** The inductive invariant of the custody step system. */
module CustodyInvariant {
  import opened Options
  import opened Custody

  ghost predicate Authorized(h: History, tb: Table, e: EntryId, why: Reason) {
    match why
    case ByAnswer => e in h.answered
    case ByRow(r) => r in tb.rows && tb.rows[r].status.Approved? && tb.rows[r].entry == e
  }

  ghost predicate RowOf(tb: Table, r: RowId, e: EntryId) {
    r in tb.rows && tb.rows[r].entry == e
  }

  /** A meta that may be on disk: it names the capture's path, and if held a row of its own entry. */
  ghost predicate MetaGood(h: History, tb: Table, e: EntryId, m: Meta) {
    && e in h.captured && e in h.origin && m.originalPath == h.origin[e] && m.filename == Base(h.origin[e])
    && (m.state.Held? ==> RowOf(tb, m.row, e))
  }

  /** A submission carries the bytes that were captured, and their path. */
  ghost predicate RequestGood(h: History, q: Request) {
    && q.entry in h.origin && q.originalPath == h.origin[q.entry] && q.filename == Base(h.origin[q.entry])
    && q.entry in h.captured && q.payload == Whole(h.captured[q.entry])
  }

  ghost predicate ReplyGood(h: History, tb: Table, reply: Reply) {
    && (reply.decision.Release? ==> reply.entry in h.answered)
    && (reply.decision.Hold? ==> RowOf(tb, reply.row, reply.entry))
  }

  ghost predicate IsReady(s: State, t: Tid, e: EntryId, m: Meta) {
    t != POLLER && s.MetaOf(e) == Readable(m) && m.state.PendingSubmit?
  }

  /** A thread in the middle of a release: its meta says on which ground. */
  ghost predicate IsReleasing(s: State, t: Tid, e: EntryId, m: Meta) {
    && s.MetaOf(e) == Readable(m) && !m.state.Blocked? && (m.state.Held? <==> t == POLLER)
    && Authorized(s.hist, s.table, e, ReasonFor(m))
  }

  /** moveFile has returned nil: the payload is gone from quarantine and was complete at its path. */
  ghost predicate HasLeft(s: State, e: EntryId) {
    e in s.disk && s.disk[e].payload.NoPayload? && e in s.hist.delivered
  }

  ghost predicate PcGood(s: State, t: Tid) {
    match s.Pc(t)
    case Idle => true
    case Capturing(e, path, b, ph) =>
      && t > SWEEPER && e in s.hist.origin && s.hist.origin[e] == path
      && (ph.AtDest? <==> e in s.hist.captured) && (ph.AtDest? ==> s.hist.captured[e] == b) && e !in s.hist.delivered
      && e in s.disk && s.disk[e] == Entry(PayloadIn(ph, b), NoMeta)
    case HasPayload(e, path) =>
      && t > SWEEPER && e in s.hist.origin && s.hist.origin[e] == path
      && e in s.hist.captured && e !in s.hist.delivered && e in s.disk && s.MetaOf(e).NoMeta?
    case Writing(e, m) =>
      s.MetaOf(e).Torn? && MetaGood(s.hist, s.table, e, m)
      && (m.state.PendingSubmit? ==> t > SWEEPER) && (m.state.Held? ==> t != POLLER)
    case Ready(e, m) => IsReady(s, t, e, m)
    case Waiting(e, m, r) =>
      && IsReady(s, t, e, m) && r < s.net.next
      && (r in s.net.requests ==> s.net.requests[r].entry == e)
      && (r in s.net.replies ==> s.net.replies[r].entry == e)
    case Answered(e, m, reply) => IsReady(s, t, e, m) && reply.entry == e && ReplyGood(s.hist, s.table, reply)
    case Seen(e, m) => t == POLLER && s.MetaOf(e) == Readable(m) && m.state.Held?
    case Polled(e, m, status) =>
      && t == POLLER && s.MetaOf(e) == Readable(m) && m.state.Held?
      && (status.Approved? ==> Authorized(s.hist, s.table, e, ByRow(m.row)))
    case Releasing(e, m, ph) => IsReleasing(s, t, e, m) && (ph.AtDest? ==> HasLeft(s, e))
    case Released(e, m) => IsReleasing(s, t, e, m) && HasLeft(s, e)
    case Emptied(e) => s.MetaOf(e).NoMeta? && HasLeft(s, e)
  }

  ghost predicate Disjoint(s: State) {
    forall t, u :: t != u && !s.Pc(t).Idle? && !s.Pc(u).Idle? ==> s.Pc(t).entry != s.Pc(u).entry
  }

  ghost predicate DaemonGood(d: Daemon) {
    && (d.sweeping ==> forall t :: t in d.threads && t > SWEEPER ==> d.threads[t].Idle?)
    && (!d.up ==> d.threads == map[] && !d.sweeping)
  }

  ghost predicate DiskGood(disk: map<EntryId, Entry>, h: History, tb: Table) {
    && (forall e :: e in disk ==> e in h.origin)
    && (forall e :: e in disk && disk[e].metaFile.Readable? ==> MetaGood(h, tb, e, disk[e].metaFile.meta))
  }

  /** Payloads are what was captured, and missing only after a release. */
  ghost predicate PayloadsGood(disk: map<EntryId, Entry>, h: History) {
    forall e :: e in h.captured ==>
      && e in h.origin
      && (e in disk && disk[e].payload != NoPayload ==> disk[e].payload == Whole(h.captured[e]))
      && (e !in h.delivered ==> e in disk && disk[e].payload != NoPayload)
  }

  ghost predicate MessagesGood(net: Network, h: History, tb: Table) {
    && (forall r :: r in net.requests ==> r < net.next)
    && (forall r :: r in net.requests ==> RequestGood(h, net.requests[r]))
    && (forall r :: r in net.replies ==> r < net.next && r !in net.requests && ReplyGood(h, tb, net.replies[r]))
  }

  ghost predicate RowsGood(tb: Table, h: History) {
    forall r :: r in tb.rows ==>
      && r < tb.next && tb.rows[r].entry in h.origin && tb.rows[r].originalPath == h.origin[tb.rows[r].entry]
      && tb.rows[r].filename == Base(h.origin[tb.rows[r].entry])
      && (tb.rows[r].verdict.Suspicious? || tb.rows[r].verdict.Inconclusive?)
  }

  ghost predicate PlacedGood(h: History, tb: Table) {
    && (forall e, why :: (e, why) in h.placed ==> Authorized(h, tb, e, why))
    && (forall e :: e in h.delivered ==> e in h.captured && exists why :: (e, why) in h.placed)
  }

  ghost predicate DataGood(s: State) {
    && DiskGood(s.disk, s.hist, s.table) && PayloadsGood(s.disk, s.hist) && MessagesGood(s.net, s.hist, s.table)
    && RowsGood(s.table, s.hist) && PlacedGood(s.hist, s.table)
  }

  ghost predicate Inv(s: State) {
    (forall t :: PcGood(s, t)) && Disjoint(s) && DaemonGood(s.daemon) && DataGood(s)
  }

  // ----- What a step leaves alone -----

  ghost predicate HistoryGrows(h: History, h': History, mine: set<EntryId>) {
    && (forall e :: e in h.origin ==> e in h'.origin && h'.origin[e] == h.origin[e])
    && (forall e :: e in h.captured ==> e in h'.captured && h'.captured[e] == h.captured[e])
    && h'.captured.Keys <= h.captured.Keys + mine && h'.origin.Keys <= h.origin.Keys + mine
    && h.delivered <= h'.delivered <= h.delivered + mine
    && h.answered <= h'.answered && h.placed <= h'.placed
  }

  ghost predicate SameDisk(disk: map<EntryId, Entry>, disk': map<EntryId, Entry>, mine: set<EntryId>) {
    forall e :: e !in mine ==> (e in disk' <==> e in disk) && (e in disk ==> disk'[e] == disk[e])
  }

  ghost predicate TableGrows(tb: Table, tb': Table) {
    forall r :: r in tb.rows ==>
      && r in tb'.rows && tb'.rows[r].entry == tb.rows[r].entry
      && (!tb.rows[r].status.Pending? ==> tb'.rows[r] == tb.rows[r])
  }

  ghost predicate NetSteps(net: Network, net': Network) {
    && net.next <= net'.next
    && (forall r :: r in net'.requests && r < net.next ==> r in net.requests && net'.requests[r] == net.requests[r])
    && (forall r :: r in net'.replies ==>
      || (r in net.replies && net'.replies[r] == net.replies[r])
      || (r in net.requests && net'.replies[r].entry == net.requests[r].entry))
  }

  /** History only grows, and entries outside `mine` keep their files. */
  ghost predicate Grows(s: State, s': State, mine: set<EntryId>) {
    && HistoryGrows(s.hist, s'.hist, mine) && SameDisk(s.disk, s'.disk, mine)
    && TableGrows(s.table, s'.table) && NetSteps(s.net, s'.net)
  }

  /** What another thread relies on survives a step on entries it does not own. */
  lemma OtherThreadKeeps(s: State, s': State, mine: set<EntryId>, u: Tid)
    requires Grows(s, s', mine) && PcGood(s, u) && s'.Pc(u) == s.Pc(u)
    requires !s.Pc(u).Idle? ==> s.Pc(u).entry !in mine
    ensures PcGood(s', u)
  {
    if !s.Pc(u).Idle? {
      assert s'.MetaOf(s.Pc(u).entry) == s.MetaOf(s.Pc(u).entry);
    }
  }

  /** The thread that takes a step of the daemon. */
  function Actor(a: Action): Option<Tid> {
    match a
    case SweepTake(_) => Some(SWEEPER)
    case SweepEnd => Some(SWEEPER)
    case SeeHeld(_) => Some(POLLER)
    case GetStatus => Some(POLLER)
    case Handle(_, _) | Drop(_) | Decide(_, _) | Crash | Boot => None
    case _ => Some(a.t)
  }

  /** The entries a step may touch: the one its thread owns or takes on. */
  function Mine(s: State, a: Action): set<EntryId> {
    match a
    case StartCapture(_, e, _, _) => {e}
    case SweepTake(e) => if s.MetaOf(e).Readable? && s.MetaOf(e).meta.state.PendingSubmit? then {e} else {}
    case SeeHeld(e) => {e}
    case _ => if Actor(a).Some? && !s.Pc(Actor(a).value).Idle? then {s.Pc(Actor(a).value).entry} else {}
  }

  ghost predicate ActorReady(s: State, a: Action) {
    Enabled(s, a) && (Actor(a).Some? ==> PcGood(s, Actor(a).value))
  }

  lemma HistStep(s: State, a: Action)
    requires Enabled(s, a)
    requires a.CaptureMove? ==> s.Pc(a.t).entry !in s.hist.captured
    ensures HistoryGrows(s.hist, Apply(s, a).hist, Mine(s, a))
  {
  }

  lemma DiskStep(s: State, a: Action)
    requires Enabled(s, a)
    ensures SameDisk(s.disk, Apply(s, a).disk, Mine(s, a))
  {
  }

  lemma TableChange(s: State, a: Action)
    requires Enabled(s, a) && (a.Handle? || a.Decide?) && RowsGood(s.table, s.hist)
    ensures TableGrows(s.table, Apply(s, a).table)
  {
  }

  lemma TableSame(s: State, a: Action)
    requires Enabled(s, a) && !a.Handle? && !a.Decide?
    ensures Apply(s, a).table == s.table
  {
  }

  lemma TableStep(s: State, a: Action)
    requires Enabled(s, a) && RowsGood(s.table, s.hist)
    ensures TableGrows(s.table, Apply(s, a).table)
  {
    if !a.Handle? && !a.Decide? {
      TableSame(s, a);
    } else {
      TableChange(s, a);
    }
  }

  lemma NetChange(s: State, a: Action)
    requires Enabled(s, a) && (a.Send? || a.Handle? || a.Drop? || a.Receive?) && MessagesGood(s.net, s.hist, s.table)
    ensures NetSteps(s.net, Apply(s, a).net)
  {
  }

  lemma NetStep(s: State, a: Action)
    requires Enabled(s, a) && MessagesGood(s.net, s.hist, s.table)
    ensures NetSteps(s.net, Apply(s, a).net)
  {
    if !a.Send? && !a.Handle? && !a.Drop? && !a.Receive? {
      NetSame(s, a);
    } else {
      NetChange(s, a);
    }
  }

  lemma CaptureActor(s: State, a: Action)
    requires ActorReady(s, a) && DataGood(s)
    requires a.StartCapture? || a.CaptureMove? || a.CaptureDone? || a.BeginWrite? || a.FinishWrite? || a.Abandon? || a.RemoveDir?
    ensures PcGood(Apply(s, a), Actor(a).value)
    ensures Apply(s, a).Pc(Actor(a).value).Idle? || Apply(s, a).Pc(Actor(a).value).entry in Mine(s, a)
  {
  }

  lemma SubmitActor(s: State, a: Action)
    requires ActorReady(s, a) && DataGood(s)
    requires a.SweepTake? || a.SweepEnd? || a.Receive? || a.SeeHeld? || a.GetStatus?
    ensures PcGood(Apply(s, a), Actor(a).value)
    ensures Apply(s, a).Pc(Actor(a).value).Idle? || Apply(s, a).Pc(Actor(a).value).entry in Mine(s, a)
  {
  }

  lemma SendActor(s: State, a: Action)
    requires ActorReady(s, a) && DataGood(s) && a.Send?
    ensures PcGood(Apply(s, a), a.t) && Apply(s, a).Pc(a.t).entry in Mine(s, a)
  {
  }

  lemma MoveActor(s: State, a: Action)
    requires ActorReady(s, a) && DataGood(s) && (a.BeginRelease? || a.ReleaseMove?)
    ensures PcGood(Apply(s, a), Actor(a).value)
    ensures Apply(s, a).Pc(Actor(a).value).Idle? || Apply(s, a).Pc(Actor(a).value).entry in Mine(s, a)
  {
  }

  lemma MovedActor(s: State, a: Action)
    requires ActorReady(s, a) && DataGood(s) && (a.ReleaseDone? || a.RemoveMeta?)
    ensures PcGood(Apply(s, a), Actor(a).value)
    ensures Apply(s, a).Pc(Actor(a).value).Idle? || Apply(s, a).Pc(Actor(a).value).entry in Mine(s, a)
  {
  }

  predicate WritesMeta(a: Action) {
    a.StartCapture? || a.BeginWrite? || a.FinishWrite? || a.RemoveMeta? || a.RemoveDir?
  }

  lemma MetaWritten(s: State, a: Action, e: EntryId)
    requires ActorReady(s, a) && WritesMeta(a) && e in Apply(s, a).disk && e in Mine(s, a)
    requires DiskGood(s.disk, s.hist, s.table)
    ensures e in Apply(s, a).hist.origin
    ensures var s' := Apply(s, a);
      s'.disk[e].metaFile.Readable? ==> MetaGood(s'.hist, s'.table, e, s'.disk[e].metaFile.meta)
  {
  }

  lemma MetaStays(s: State, a: Action, e: EntryId)
    requires ActorReady(s, a) && !WritesMeta(a)
    ensures (e in Apply(s, a).disk <==> e in s.disk) && Apply(s, a).MetaOf(e) == s.MetaOf(e)
  {
  }

  lemma DiskGoodStep(s: State, a: Action)
    requires ActorReady(s, a)
    requires DiskGood(s.disk, s.hist, s.table)
    requires Grows(s, Apply(s, a), Mine(s, a))
    ensures DiskGood(Apply(s, a).disk, Apply(s, a).hist, Apply(s, a).table)
  {
    var s' := Apply(s, a);
    forall e | e in s'.disk
      ensures e in s'.hist.origin
      ensures s'.disk[e].metaFile.Readable? ==> MetaGood(s'.hist, s'.table, e, s'.disk[e].metaFile.meta)
    {
      if WritesMeta(a) && e in Mine(s, a) {
        MetaWritten(s, a, e);
      } else {
        if !WritesMeta(a) {
          MetaStays(s, a, e);
        }
        assert e in s.disk && s'.MetaOf(e) == s.MetaOf(e);
        MetaLasts(s, s', Mine(s, a), e);
      }
    }
  }

  lemma MetaLasts(s: State, s': State, mine: set<EntryId>, e: EntryId)
    requires HistoryGrows(s.hist, s'.hist, mine) && TableGrows(s.table, s'.table)
    requires e in s.disk && DiskGood(s.disk, s.hist, s.table)
    ensures e in s'.hist.origin
    ensures s.disk[e].metaFile.Readable? ==> MetaGood(s'.hist, s'.table, e, s.disk[e].metaFile.meta)
  {
  }

  predicate MovesPayload(a: Action) {
    a.StartCapture? || a.CaptureMove? || a.CaptureDone? || a.ReleaseMove? || a.RemoveDir?
  }

  lemma PayloadMoves(s: State, a: Action)
    requires ActorReady(s, a) && MovesPayload(a)
    requires PayloadsGood(s.disk, s.hist)
    ensures PayloadsGood(Apply(s, a).disk, Apply(s, a).hist)
  {
  }

  lemma PayloadStays(s: State, a: Action, e: EntryId)
    requires ActorReady(s, a) && !MovesPayload(a)
    ensures var s' := Apply(s, a);
      && (e in s'.disk <==> e in s.disk) && (e in s.disk ==> s'.disk[e].payload == s.disk[e].payload)
      && s'.hist.captured == s.hist.captured && s'.hist.origin == s.hist.origin && s'.hist.delivered == s.hist.delivered
  {
  }

  lemma PayloadsStep(s: State, a: Action)
    requires ActorReady(s, a)
    requires PayloadsGood(s.disk, s.hist)
    ensures PayloadsGood(Apply(s, a).disk, Apply(s, a).hist)
  {
    if MovesPayload(a) {
      PayloadMoves(s, a);
    } else {
      forall e ensures var s' := Apply(s, a);
        && (e in s'.disk <==> e in s.disk) && (e in s.disk ==> s'.disk[e].payload == s.disk[e].payload)
        && s'.hist.captured == s.hist.captured && s'.hist.origin == s.hist.origin && s'.hist.delivered == s.hist.delivered
      {
        PayloadStays(s, a, e);
      }
    }
  }

  /** Facts about messages, rows and placed bytes outlast every growth of the rest. */
  lemma MessagesLast(s: State, s': State, mine: set<EntryId>)
    requires HistoryGrows(s.hist, s'.hist, mine) && TableGrows(s.table, s'.table)
    ensures MessagesGood(s.net, s.hist, s.table) ==> MessagesGood(s.net, s'.hist, s'.table)
  {
  }

  lemma RowsLast(s: State, s': State, mine: set<EntryId>)
    requires HistoryGrows(s.hist, s'.hist, mine)
    ensures RowsGood(s.table, s.hist) ==> RowsGood(s.table, s'.hist)
  {
  }

  lemma PlacedLasts(s: State, s': State, mine: set<EntryId>)
    requires HistoryGrows(s.hist, s'.hist, mine) && TableGrows(s.table, s'.table)
    requires s'.hist.placed == s.hist.placed && s'.hist.delivered == s.hist.delivered
    ensures PlacedGood(s.hist, s.table) ==> PlacedGood(s'.hist, s'.table)
  {
  }

  lemma SendGood(s: State, a: Action)
    requires ActorReady(s, a) && a.Send?
    requires MessagesGood(s.net, s.hist, s.table) && DiskGood(s.disk, s.hist, s.table) && PayloadsGood(s.disk, s.hist)
    requires HistoryGrows(s.hist, Apply(s, a).hist, Mine(s, a)) && TableGrows(s.table, Apply(s, a).table)
    ensures MessagesGood(Apply(s, a).net, Apply(s, a).hist, Apply(s, a).table)
  {
    MessagesLast(s, Apply(s, a), Mine(s, a));
  }

  lemma HandleGood(s: State, a: Action)
    requires ActorReady(s, a) && a.Handle?
    requires MessagesGood(s.net, s.hist, s.table) && DiskGood(s.disk, s.hist, s.table) && PayloadsGood(s.disk, s.hist)
    requires HistoryGrows(s.hist, Apply(s, a).hist, Mine(s, a)) && TableGrows(s.table, Apply(s, a).table)
    ensures MessagesGood(Apply(s, a).net, Apply(s, a).hist, Apply(s, a).table)
  {
    MessagesLast(s, Apply(s, a), Mine(s, a));
  }

  lemma MessageGone(s: State, a: Action)
    requires ActorReady(s, a) && (a.Drop? || a.Receive?)
    requires MessagesGood(s.net, s.hist, s.table)
    requires HistoryGrows(s.hist, Apply(s, a).hist, Mine(s, a)) && TableGrows(s.table, Apply(s, a).table)
    ensures MessagesGood(Apply(s, a).net, Apply(s, a).hist, Apply(s, a).table)
  {
    MessagesLast(s, Apply(s, a), Mine(s, a));
  }

  lemma MessagesStep(s: State, a: Action)
    requires ActorReady(s, a)
    requires MessagesGood(s.net, s.hist, s.table) && DiskGood(s.disk, s.hist, s.table) && PayloadsGood(s.disk, s.hist)
    requires Grows(s, Apply(s, a), Mine(s, a))
    ensures MessagesGood(Apply(s, a).net, Apply(s, a).hist, Apply(s, a).table)
  {
    if a.Send? {
      SendGood(s, a);
    } else if a.Handle? {
      HandleGood(s, a);
    } else if a.Drop? || a.Receive? {
      MessageGone(s, a);
    } else {
      MessagesLast(s, Apply(s, a), Mine(s, a));
      NetSame(s, a);
    }
  }

  lemma RowsChange(s: State, a: Action)
    requires Enabled(s, a) && (a.Handle? || a.Decide?)
    requires RowsGood(s.table, s.hist) && MessagesGood(s.net, s.hist, s.table)
    ensures RowsGood(Apply(s, a).table, Apply(s, a).hist)
  {
  }

  lemma RowsStep(s: State, a: Action)
    requires Enabled(s, a)
    requires RowsGood(s.table, s.hist) && MessagesGood(s.net, s.hist, s.table)
    requires Grows(s, Apply(s, a), Mine(s, a))
    ensures RowsGood(Apply(s, a).table, Apply(s, a).hist)
  {
    if a.Handle? || a.Decide? {
      RowsChange(s, a);
    } else {
      RowsLast(s, Apply(s, a), Mine(s, a));
      TableSame(s, a);
    }
  }

  lemma PlacedByMove(s: State, a: Action)
    requires ActorReady(s, a) && a.ReleaseMove?
    requires PlacedGood(s.hist, s.table) && DiskGood(s.disk, s.hist, s.table)
    ensures PlacedGood(Apply(s, a).hist, Apply(s, a).table)
  {
    var pc, h, h' := s.Pc(a.t), s.hist, Apply(s, a).hist;
    forall e | e in h'.delivered ensures e in h'.captured && exists why :: (e, why) in h'.placed {
      if e in h.delivered {
        var why :| (e, why) in h.placed;
        assert (e, why) in h'.placed;
      } else {
        assert (e, ReasonFor(pc.meta)) in h'.placed;
      }
    }
  }

  lemma PlacedSame(s: State, a: Action)
    requires Enabled(s, a) && !a.ReleaseMove?
    ensures Apply(s, a).hist.placed == s.hist.placed && Apply(s, a).hist.delivered == s.hist.delivered
  {
  }

  lemma NetSame(s: State, a: Action)
    requires Enabled(s, a) && !a.Send? && !a.Handle? && !a.Drop? && !a.Receive?
    ensures Apply(s, a).net == s.net
  {
  }

  lemma PlacedStep(s: State, a: Action)
    requires ActorReady(s, a)
    requires PlacedGood(s.hist, s.table) && DiskGood(s.disk, s.hist, s.table)
    requires Grows(s, Apply(s, a), Mine(s, a))
    ensures PlacedGood(Apply(s, a).hist, Apply(s, a).table)
  {
    if a.ReleaseMove? {
      PlacedByMove(s, a);
    } else {
      PlacedSame(s, a);
      PlacedLasts(s, Apply(s, a), Mine(s, a));
    }
  }

  // ----- Every step keeps the invariant -----

  lemma StepGrows(s: State, a: Action)
    requires Inv(s) && Enabled(s, a)
    ensures Grows(s, Apply(s, a), Mine(s, a))
  {
    if Actor(a).Some? {
      assert PcGood(s, Actor(a).value);
    }
    HistStep(s, a);
    DiskStep(s, a);
    TableStep(s, a);
    NetStep(s, a);
  }

  lemma DataStep(s: State, a: Action)
    requires Inv(s) && Enabled(s, a)
    ensures DataGood(Apply(s, a))
  {
    if Actor(a).Some? {
      assert PcGood(s, Actor(a).value);
    }
    StepGrows(s, a);
    DiskGoodStep(s, a);
    PayloadsStep(s, a);
    MessagesStep(s, a);
    RowsStep(s, a);
    PlacedStep(s, a);
  }

  /** No thread but the actor owns an entry the step touches. */
  lemma NotOwned(s: State, a: Action, u: Tid)
    requires Inv(s) && Enabled(s, a) && Actor(a) != Some(u) && !s.Pc(u).Idle?
    ensures s.Pc(u).entry !in Mine(s, a)
  {
    assert PcGood(s, u);
    if a.StartCapture? {
      assert s.Pc(u).entry in s.hist.origin;
    }
  }

  lemma ActorStep(s: State, a: Action)
    requires Inv(s) && Enabled(s, a) && Actor(a).Some?
    ensures PcGood(Apply(s, a), Actor(a).value)
    ensures Apply(s, a).Pc(Actor(a).value).Idle? || Apply(s, a).Pc(Actor(a).value).entry in Mine(s, a)
  {
    assert PcGood(s, Actor(a).value);
    match a
    case StartCapture(_, _, _, _) | CaptureMove(_, _) | CaptureDone(_) | BeginWrite(_) | FinishWrite(_) | Abandon(_) | RemoveDir(_) =>
      CaptureActor(s, a);
    case Send(_, _, _) => SendActor(s, a);
    case SweepTake(_) | SweepEnd | Receive(_) | SeeHeld(_) | GetStatus => SubmitActor(s, a);
    case BeginRelease(_) | ReleaseMove(_, _) => MoveActor(s, a);
    case ReleaseDone(_) | RemoveMeta(_) => MovedActor(s, a);
  }

  lemma OthersStay(s: State, a: Action, u: Tid)
    requires Enabled(s, a) && !a.Crash? && Actor(a) != Some(u)
    ensures Apply(s, a).Pc(u) == s.Pc(u)
  {
  }

  lemma ThreadsStep(s: State, a: Action, u: Tid)
    requires Inv(s) && Enabled(s, a) && !a.Crash?
    ensures PcGood(Apply(s, a), u)
  {
    if Actor(a) == Some(u) {
      ActorStep(s, a);
    } else {
      OthersStay(s, a, u);
      StepGrows(s, a);
      assert PcGood(s, u);
      if !s.Pc(u).Idle? {
        NotOwned(s, a, u);
      }
      OtherThreadKeeps(s, Apply(s, a), Mine(s, a), u);
    }
  }

  lemma DisjointStep(s: State, a: Action, t: Tid, u: Tid)
    requires Inv(s) && Enabled(s, a) && !a.Crash? && t != u
    requires !Apply(s, a).Pc(t).Idle? && !Apply(s, a).Pc(u).Idle?
    ensures Apply(s, a).Pc(t).entry != Apply(s, a).Pc(u).entry
  {
    var s' := Apply(s, a);
    if Actor(a) == Some(t) {
      ActorStep(s, a);
      OthersStay(s, a, u);
      NotOwned(s, a, u);
    } else if Actor(a) == Some(u) {
      ActorStep(s, a);
      OthersStay(s, a, t);
      NotOwned(s, a, t);
    } else {
      OthersStay(s, a, t);
      OthersStay(s, a, u);
    }
  }

  lemma DaemonStep(s: State, a: Action)
    requires Inv(s) && Enabled(s, a)
    ensures DaemonGood(Apply(s, a).daemon)
  {
    if Actor(a).Some? {
      assert PcGood(s, Actor(a).value);
    }
  }

  lemma InvStep(s: State, a: Action)
    requires Inv(s) && Enabled(s, a)
    ensures Inv(Apply(s, a))
  {
    var s' := Apply(s, a);
    DataStep(s, a);
    DaemonStep(s, a);
    if !a.Crash? {
      forall u ensures PcGood(s', u) {
        ThreadsStep(s, a, u);
      }
      forall t, u | t != u && !s'.Pc(t).Idle? && !s'.Pc(u).Idle? ensures s'.Pc(t).entry != s'.Pc(u).entry {
        DisjointStep(s, a, t, u);
      }
    }
  }
}
