/** Quarantine custody: the interceptor daemon (the interceptor directory), the backend's
    quarantine table (backend/intercept_handlers.go, backend/quarantine.go) and an
    admin, as one step system. Each action is one system call, one HTTP message or one
    SQL statement; a crash wipes the threads and leaves the disk as it is. A moveFile is
    its phases (FileMove): the files moved are regular, and a release goes to a path that
    does not lead to the payload itself. */
module Custody {
  import opened Options
  import opened Verdicts
  import opened FileMove

  type EntryId = nat
  type RowId = nat
  type RequestId = nat
  type Tid = nat

  // The held poller and the startup sweep are one thread each; every other thread is a worker.
  const POLLER: Tid := 0
  const SWEEPER: Tid := 1

  datatype EntryState = PendingSubmit | Held | Blocked
  datatype Meta = Meta(originalPath: string, filename: string, state: EntryState, row: RowId)

  /** meta.json: absent, written in part (or damaged), or readable. */
  datatype MetaFile = NoMeta | Torn | Readable(meta: Meta)
  datatype Payload = NoPayload | PartOf | Whole(bytes: Bytes)
  datatype Entry = Entry(payload: Payload, metaFile: MetaFile)

  datatype Decision = Release | Block | Hold
  datatype Status = Pending | Approved | Rejected

  /** A quarantined_files row. `entry` is history: whose submission inserted it. */
  datatype Row = Row(filename: string, originalPath: string, verdict: Label, status: Status, entry: EntryId)
  datatype Request = Request(entry: EntryId, filename: string, originalPath: string, payload: Payload)
  /** `entry` is history as well. */
  datatype Reply = Reply(entry: EntryId, decision: Decision, row: RowId)

  function DecisionFor(verdict: Label): Decision {
    match verdict
    case Normal => Release
    case Compromised => Block
    case _ => Hold
  }

  /** Where a thread of the daemon is. */
  datatype Pc =
    | Idle
    | Capturing(entry: EntryId, path: string, bytes: Bytes, phase: Phase)
    | HasPayload(entry: EntryId, path: string)
    | Writing(entry: EntryId, meta: Meta)
    | Ready(entry: EntryId, meta: Meta)
    | Waiting(entry: EntryId, meta: Meta, request: RequestId)
    | Answered(entry: EntryId, meta: Meta, reply: Reply)
    | Seen(entry: EntryId, meta: Meta)
    | Polled(entry: EntryId, meta: Meta, status: Status)
    | Releasing(entry: EntryId, meta: Meta, phase: Phase)
    | Released(entry: EntryId, meta: Meta)
    | Emptied(entry: EntryId)

  /** Why bytes were put back: the backend answered release, or an admin approved a row. */
  datatype Reason = ByAnswer | ByRow(row: RowId)

  /** The volatile state of the daemon, all of it lost in a crash. `todo` is what the
      startup sweep listed and has not reached yet. */
  datatype Daemon = Daemon(up: bool, sweeping: bool, todo: set<EntryId>, threads: map<Tid, Pc>)

  /** Submissions on their way to the backend, and answers on their way back. */
  datatype Network = Network(requests: map<RequestId, Request>, replies: map<RequestId, Reply>, next: RequestId)

  datatype Table = Table(rows: map<RowId, Row>, next: RowId)

  /** What happened so far; no step of the program reads it. `origin` and `captured` say
      which file an entry was made from, `answered` for which entries the backend said
      release, `placed` which entries' bytes were written to their original path and
      why, `delivered` which were there in full. */
  datatype History = History(
    origin: map<EntryId, string>, captured: map<EntryId, Bytes>,
    answered: set<EntryId>, placed: set<(EntryId, Reason)>, delivered: set<EntryId>)

  datatype State = State(daemon: Daemon, disk: map<EntryId, Entry>, net: Network, table: Table, hist: History) {
    function Pc(t: Tid): Pc {
      if t in daemon.threads then daemon.threads[t] else Idle
    }

    function At(t: Tid, pc: Pc): State {
      this.(daemon := daemon.(threads := daemon.threads[t := pc]))
    }

    function MetaOf(e: EntryId): MetaFile {
      if e in disk then disk[e].metaFile else NoMeta
    }

    function WithMeta(e: EntryId, m: MetaFile): State
      requires e in disk
    {
      this.(disk := disk[e := disk[e].(metaFile := m)])
    }

    function WithPayload(e: EntryId, p: Payload): State
      requires e in disk
    {
      this.(disk := disk[e := disk[e].(payload := p)])
    }
  }

  const EMPTY: State := State(
    Daemon(false, false, {}, map[]), map[], Network(map[], map[], 0), Table(map[], 1), History(map[], map[], {}, {}, {}))

  datatype Action =
    | StartCapture(t: Tid, entry: EntryId, path: string, bytes: Bytes)
    | CaptureMove(t: Tid, phase: Phase)
    | CaptureDone(t: Tid)
    | BeginWrite(t: Tid)
    | FinishWrite(t: Tid)
    | SweepTake(entry: EntryId)
    | SweepEnd
    | Send(t: Tid, entry: EntryId, request: RequestId)
    | Handle(request: RequestId, verdict: Label)
    | Drop(request: RequestId)
    | Receive(t: Tid)
    | SeeHeld(entry: EntryId)
    | GetStatus
    | BeginRelease(t: Tid)
    | ReleaseMove(t: Tid, phase: Phase)
    | ReleaseDone(t: Tid)
    | RemoveMeta(t: Tid)
    | RemoveDir(t: Tid)
    | Abandon(t: Tid)
    | Decide(row: RowId, status: Status)
    | Crash
    | Boot

  /** filepath.Base of a path that names a file: what follows the last slash. */
  function Base(path: string): string {
    if '/' !in path then path else Base(path[1..])
  }

  lemma {:induction false} BaseIs(dir: string, name: string)
    requires '/' !in name && (dir == "" || dir[|dir| - 1] == '/')
    ensures Base(dir + name) == name
  {
    if dir == "" {
      assert dir + name == name;
    } else {
      assert (dir + name)[|dir| - 1] == '/';
      assert (dir + name)[1..] == dir[1..] + name;
      BaseIs(dir[1..], name);
    }
  }

  /** The meta a thread is about to write, if its next call is a writeMeta. */
  function NextMeta(pc: Pc): Option<Meta> {
    match pc
    case HasPayload(_, path) => Some(Meta(path, Base(path), PendingSubmit, 0))
    case Answered(_, m, reply) =>
      if reply.decision.Block? then Some(m.(state := Blocked))
      else if reply.decision.Hold? then Some(m.(state := Held, row := reply.row))
      else None
    case Polled(_, m, status) => if status.Rejected? then Some(m.(state := Blocked)) else None
    case _ => None
  }

  predicate Enabled(s: State, a: Action) {
    match a
    case StartCapture(t, e, _, _) =>
      s.daemon.up && !s.daemon.sweeping && t > SWEEPER && s.Pc(t).Idle? && e !in s.hist.origin
    case CaptureMove(t, ph) => s.Pc(t).Capturing? && PhaseStep(s.Pc(t).phase, ph) && s.Pc(t).entry in s.disk
    case CaptureDone(t) => s.Pc(t).Capturing? && s.Pc(t).phase.AtDest?
    case BeginWrite(t) => NextMeta(s.Pc(t)).Some? && s.Pc(t).entry in s.disk
    case FinishWrite(t) => s.Pc(t).Writing? && s.Pc(t).entry in s.disk
    case SweepTake(e) => s.daemon.up && s.daemon.sweeping && s.Pc(SWEEPER).Idle? && e in s.daemon.todo
    case SweepEnd => s.daemon.up && s.daemon.sweeping && s.Pc(SWEEPER).Idle? && s.daemon.todo == {}
    case Send(t, e, r) =>
      s.Pc(t).Ready? && s.Pc(t).entry == e && e in s.disk && s.disk[e].payload != NoPayload && r == s.net.next
    case Handle(r, _) => r in s.net.requests
    case Drop(r) => r in s.net.requests
    case Receive(t) => s.Pc(t).Waiting? && s.Pc(t).request in s.net.replies
    case SeeHeld(e) => s.daemon.up && s.Pc(POLLER).Idle? && s.MetaOf(e).Readable? && s.MetaOf(e).meta.state.Held?
    case GetStatus => s.Pc(POLLER).Seen? && s.Pc(POLLER).meta.row in s.table.rows
    case BeginRelease(t) =>
      || (s.Pc(t).Answered? && s.Pc(t).reply.decision.Release?)
      || (s.Pc(t).Polled? && s.Pc(t).status.Approved?)
    case ReleaseMove(t, ph) =>
      && s.Pc(t).Releasing? && PhaseStep(s.Pc(t).phase, ph)
      && s.Pc(t).entry in s.disk && s.disk[s.Pc(t).entry].payload != NoPayload
    case ReleaseDone(t) => s.Pc(t).Releasing? && s.Pc(t).phase.AtDest?
    case RemoveMeta(t) => s.Pc(t).Released? && s.Pc(t).entry in s.disk
    case RemoveDir(t) => s.Pc(t).Emptied?
    case Abandon(t) =>
      && !s.Pc(t).Idle?
      && (s.Pc(t).Capturing? || s.Pc(t).Releasing? ==> !s.Pc(t).phase.AtDest?)
    case Decide(r, status) => r in s.table.rows && s.table.rows[r].status.Pending? && !status.Pending?
    case Crash => s.daemon.up
    case Boot => !s.daemon.up
  }

  /** What a phase of the capturing move leaves in the entry directory. */
  function PayloadIn(ph: Phase, b: Bytes): Payload {
    match ph
    case AtSource => NoPayload
    case Copying => PartOf
    case _ => Whole(b)
  }

  function ReasonFor(m: Meta): Reason {
    if m.state.Held? then ByRow(m.row) else ByAnswer
  }

  /** detonateAndScore has come to a verdict: insert a row for a hold, and answer. */
  function Handled(s: State, r: RequestId, verdict: Label): State
    requires r in s.net.requests
  {
    var q, d, id := s.net.requests[r], DecisionFor(verdict), s.table.next;
    var row := Row(q.filename, q.originalPath, verdict, Pending, q.entry);
    State(s.daemon, s.disk,
      s.net.(requests := s.net.requests - {r}, replies := s.net.replies[r := Reply(q.entry, d, id)]),
      if d.Hold? then Table(s.table.rows[id := row], id + 1) else s.table,
      if d.Release? then s.hist.(answered := s.hist.answered + {q.entry}) else s.hist)
  }

  /** The releasing move of `e` comes to phase `ph`. */
  function Placed(h: History, e: EntryId, why: Reason, ph: Phase): History {
    if ph.AtSource? then h
    else h.(placed := h.placed + {(e, why)}, delivered := if ph.Copying? then h.delivered else h.delivered + {e})
  }

  function Apply(s: State, a: Action): State
    requires Enabled(s, a)
  {
    match a
    case StartCapture(t, e, path, b) =>
      s.At(t, Capturing(e, path, b, AtSource))
        .(hist := s.hist.(origin := s.hist.origin[e := path]), disk := s.disk[e := Entry(NoPayload, NoMeta)])
    case CaptureMove(t, ph) =>
      var pc := s.Pc(t);
      s.WithPayload(pc.entry, PayloadIn(ph, pc.bytes)).At(t, Capturing(pc.entry, pc.path, pc.bytes, ph))
        .(hist := if ph.AtDest? then s.hist.(captured := s.hist.captured[pc.entry := pc.bytes]) else s.hist)
    case CaptureDone(t) => s.At(t, HasPayload(s.Pc(t).entry, s.Pc(t).path))
    case BeginWrite(t) => s.WithMeta(s.Pc(t).entry, Torn).At(t, Writing(s.Pc(t).entry, NextMeta(s.Pc(t)).value))
    case FinishWrite(t) =>
      var pc := s.Pc(t);
      s.WithMeta(pc.entry, Readable(pc.meta)).At(t, if pc.meta.state.PendingSubmit? then Ready(pc.entry, pc.meta) else Idle)
    case SweepTake(e) =>
      var m, rest := s.MetaOf(e), s.(daemon := s.daemon.(todo := s.daemon.todo - {e}));
      if m.Readable? && m.meta.state.PendingSubmit? then rest.At(SWEEPER, Ready(e, m.meta)) else rest
    case SweepEnd => s.(daemon := s.daemon.(sweeping := false))
    case Send(t, _, r) =>
      var pc := s.Pc(t);
      var q := Request(pc.entry, pc.meta.filename, pc.meta.originalPath, s.disk[pc.entry].payload);
      s.At(t, Waiting(pc.entry, pc.meta, r)).(net := s.net.(requests := s.net.requests[r := q], next := r + 1))
    case Handle(r, verdict) => Handled(s, r, verdict)
    case Drop(r) => s.(net := s.net.(requests := s.net.requests - {r}))
    case Receive(t) =>
      var pc := s.Pc(t);
      s.At(t, Answered(pc.entry, pc.meta, s.net.replies[pc.request])).(net := s.net.(replies := s.net.replies - {pc.request}))
    case SeeHeld(e) => s.At(POLLER, Seen(e, s.MetaOf(e).meta))
    case GetStatus =>
      var pc := s.Pc(POLLER);
      s.At(POLLER, Polled(pc.entry, pc.meta, s.table.rows[pc.meta.row].status))
    case BeginRelease(t) => s.At(t, Releasing(s.Pc(t).entry, s.Pc(t).meta, AtSource))
    case ReleaseMove(t, ph) =>
      var pc := s.Pc(t);
      (if ph.AtDest? then s.WithPayload(pc.entry, NoPayload) else s)
        .At(t, Releasing(pc.entry, pc.meta, ph)).(hist := Placed(s.hist, pc.entry, ReasonFor(pc.meta), ph))
    case ReleaseDone(t) => s.At(t, Released(s.Pc(t).entry, s.Pc(t).meta))
    case RemoveMeta(t) => s.WithMeta(s.Pc(t).entry, NoMeta).At(t, Emptied(s.Pc(t).entry))
    case RemoveDir(t) => s.At(t, Idle).(disk := s.disk - {s.Pc(t).entry})
    case Abandon(t) => s.At(t, Idle)
    case Decide(r, status) => s.(table := s.table.(rows := s.table.rows[r := s.table.rows[r].(status := status)]))
    case Crash => s.(daemon := Daemon(false, false, {}, map[]))
    case Boot =>
      s.(daemon := s.daemon.(up := true, sweeping := true, todo := set e | e in s.disk && s.disk[e].metaFile.Readable?))
  }
}
