/** The move that puts a file into quarantine and takes it out again
    (interceptor/meta.go), over a file system with directory entries, inodes, hard
    links and symbolic links. Every system call leaves a snapshot in `log`; a crash of the
    process leaves the disk at one of these snapshots. */
module FileMove {
  import opened Options

  type Path = string
  type Inode = nat
  type Bytes = seq<bv8>

  /** A directory entry: a regular file, or a symbolic link to another path. */
  datatype Name = File(inode: Inode) | Link(target: Path)
  datatype Disk = Disk(names: map<Path, Name>, data: map<Inode, Bytes>)

  // open(2) gives up after this many symbolic links.
  const MAX_LINKS := 40

  ghost predicate WellFormed(d: Disk) {
    forall p :: p in d.names && d.names[p].File? ==> d.names[p].inode in d.data
  }

  /** Where following symbolic links from `p` ends: at a file or a missing name. */
  function Follow(names: map<Path, Name>, p: Path, links: nat): Option<Path>
    decreases links
  {
    if p !in names || names[p].File? then Some(p)
    else if links == 0 then None
    else Follow(names, names[p].target, links - 1)
  }

  function Resolve(d: Disk, p: Path): Option<Path> {
    Follow(d.names, p, MAX_LINKS)
  }

  /** The inode that opening `p` reaches. */
  function Opened(d: Disk, p: Path): Option<Inode> {
    var q := Resolve(d, p);
    if q.Some? && q.value in d.names && d.names[q.value].File? then Some(d.names[q.value].inode) else None
  }

  ghost predicate HasBytes(d: Disk, p: Path, b: Bytes) {
    Opened(d, p).Some? && Opened(d, p).value in d.data && d.data[Opened(d, p).value] == b
  }

  ghost predicate IsFile(d: Disk, p: Path) {
    p in d.names && d.names[p].File?
  }

  /** Opening dst reaches the very file src names: dst is a hard link to it, or a symbolic
      link that leads to src or to a hard link. */
  ghost predicate Reaches(d: Disk, src: Path, dst: Path) {
    IsFile(d, src) && Opened(d, dst) == Some(d.names[src].inode)
  }

  ghost predicate HardLinked(d: Disk, src: Path, dst: Path) {
    IsFile(d, src) && dst in d.names && d.names[dst] == d.names[src]
  }

  /** The copy of `b` that must never be lost is at one end of the move or the other. */
  ghost predicate InCustody(d: Disk, src: Path, dst: Path, b: Bytes) {
    HasBytes(d, src, b) || HasBytes(d, dst, b)
  }

  /** What the operating system answers to each call of one move. `chunk` is the
      size of one write of the copy loop, `copyFailsAt` the offset at which a read
      or write of that loop fails, `closeKeeps` how many
      bytes a failed close leaves at dst. */
  datatype Outcomes = Outcomes(
    mkdirOk: bool, renameOk: bool, openSrcOk: bool, openDstOk: bool, freshInode: Inode,
    chunk: nat, copyFailsAt: Option<nat>, removeDstOk: bool, closeOk: bool, closeKeeps: nat,
    removeSrcOk: bool)
  {
    /** The calls up to the truncating open of dst succeed, and the rename does not. */
    predicate Truncates() {
      mkdirOk && !renameOk && openSrcOk && openDstOk
    }

    predicate FailsAt(pos: nat) {
      copyFailsAt.Some? && copyFailsAt.value <= pos
    }

    /** No call fails but perhaps the rename. */
    predicate AllOk() {
      mkdirOk && openSrcOk && openDstOk && copyFailsAt.None? && closeOk && removeSrcOk
    }

    /** What follows a copy of `pos` bytes succeeds up to the removal of src. */
    predicate Completes(pos: nat) {
      !FailsAt(pos) && closeOk && removeSrcOk
    }
  }

  /** The moves that lose the bytes: the truncating open empties the file it is about to
      read; or the file is empty anyway, and dst leads only to the name that is then removed. */
  ghost predicate Loses(d: Disk, src: Path, dst: Path, env: Outcomes, b: Bytes) {
    && env.Truncates() && Reaches(d, src, dst)
    && (b != [] || (Resolve(d, dst) == Some(src) && env.Completes(0)))
  }

  /** How far a move has come, as seen from outside: nothing at dst is ours yet, dst
      holds a part, both ends are complete, only dst is left. */
  datatype Phase = AtSource | Copying | AtBoth | AtDest

  predicate PhaseStep(a: Phase, b: Phase) {
    match a
    case AtSource => !b.AtBoth?
    case Copying => !b.AtDest?
    case AtBoth => !b.AtSource?
    case AtDest => false
  }

  /** dst is as it was before the move, or gone. */
  ghost predicate Untouched(start: Disk, d: Disk, dst: Path)
    requires WellFormed(start)
  {
    dst in d.names ==>
      && dst in start.names && d.names[dst] == start.names[dst]
      && (d.names[dst].File? ==> HasBytes(d, dst, start.data[start.names[dst].inode]))
  }

  ghost predicate Fits(ph: Phase, start: Disk, d: Disk, src: Path, dst: Path, b: Bytes)
    requires WellFormed(start)
  {
    match ph
    case AtSource => HasBytes(d, src, b) && Untouched(start, d, dst)
    case Copying => HasBytes(d, src, b) && dst in d.names
    case AtBoth => HasBytes(d, src, b) && HasBytes(d, dst, b)
    case AtDest => HasBytes(d, dst, b) && src !in d.names
  }

  /** The snapshots of one move, `log[at..]`, with the phase each of them is in. */
  ghost predicate History(log: seq<Disk>, at: nat, phases: seq<Phase>, src: Path, dst: Path, b: Bytes) {
    && at < |log| == at + |phases| && WellFormed(log[at]) && phases[0] == AtSource
    && (forall k :: at <= k < |log| ==> Fits(phases[k - at], log[at], log[k], src, dst, b))
    && (forall k :: 0 < k < |phases| ==> PhaseStep(phases[k - 1], phases[k]))
  }

  lemma Extend(log: seq<Disk>, at: nat, phases: seq<Phase>, src: Path, dst: Path, b: Bytes, d: Disk, ph: Phase)
    requires History(log, at, phases, src, dst, b)
    requires Fits(ph, log[at], d, src, dst, b) && PhaseStep(phases[|phases| - 1], ph)
    ensures History(log + [d], at, phases + [ph], src, dst, b)
  {
  }

  /** A file created where the links end is what they lead to. */
  lemma {:induction false} FollowCreated(names: map<Path, Name>, p: Path, links: nat, q: Path, file: Name)
    requires Follow(names, p, links) == Some(q) && file.File?
    ensures Follow(names[q := file], p, links) == Some(q)
    decreases links
  {
    if p in names && names[p].Link? {
      FollowCreated(names, names[p].target, links - 1, q, file);
      assert p != q by { FollowEnds(names, p, links); }
    }
  }

  lemma {:induction false} FollowEnds(names: map<Path, Name>, p: Path, links: nat)
    ensures Follow(names, p, links).Some? ==>
      Follow(names, p, links).value !in names || names[Follow(names, p, links).value].File?
    decreases links
  {
    if p in names && names[p].Link? && links > 0 {
      FollowEnds(names, names[p].target, links - 1);
    }
  }

  /** Removing a file the links do not end at changes nothing for them. */
  lemma {:induction false} FollowWithout(names: map<Path, Name>, p: Path, links: nat, gone: Path)
    requires gone in names && names[gone].File? && Follow(names, p, links) != Some(gone)
    ensures Follow(names - {gone}, p, links) == Follow(names, p, links)
    decreases links
  {
    if p in names && names[p].Link? && links > 0 {
      FollowWithout(names, names[p].target, links - 1, gone);
    }
  }

  /** ... and removing the one they end at leaves them dangling. */
  lemma {:induction false} FollowDangling(names: map<Path, Name>, p: Path, links: nat)
    requires Follow(names, p, links).Some?
    ensures var q := Follow(names, p, links).value; Follow(names - {q}, p, links) == Some(q)
    decreases links
  {
    var q := Follow(names, p, links).value;
    FollowEnds(names, p, links);
    if p in names && names[p].Link? {
      FollowDangling(names, names[p].target, links - 1);
    }
  }

  /** The disk after open(2) with O_CREAT|O_TRUNC, which follows symbolic links. */
  function Truncated(d: Disk, dst: Path, unused: Inode): Disk
    requires Resolve(d, dst).Some?
  {
    var q := Resolve(d, dst).value;
    var ino := if Opened(d, dst).Some? then Opened(d, dst).value else unused;
    Disk(d.names[q := File(ino)], d.data[ino := []])
  }

  lemma TruncatedOpens(d: Disk, dst: Path, unused: Inode)
    requires WellFormed(d) && Resolve(d, dst).Some?
    ensures var e := Truncated(d, dst, unused);
      && WellFormed(e) && Resolve(e, dst) == Resolve(d, dst) && dst in e.names
      && Opened(e, dst) == Some(if Opened(d, dst).Some? then Opened(d, dst).value else unused)
      && forall p :: p in d.names ==> p in e.names && e.names[p] == d.names[p]
  {
    var q := Resolve(d, dst).value;
    FollowEnds(d.names, dst, MAX_LINKS);
    FollowCreated(d.names, dst, MAX_LINKS, q, Truncated(d, dst, unused).names[q]);
  }

  /** The snapshots that close, and the removal of src or of a failed copy, leave behind. */
  function Endings(d: Disk, src: Path, dst: Path, output: Inode, pos: nat, env: Outcomes): (ends: seq<Disk>)
    requires output in d.data && pos <= |d.data[output]|
  {
    if env.FailsAt(pos) then
      if env.removeDstOk then [d.(names := d.names - {dst})] else []
    else if !env.closeOk then
      [d.(data := d.data[output := d.data[output][..if env.closeKeeps < pos then env.closeKeeps else pos]])]
    else if !env.removeSrcOk then [d]
    else [d, d.(names := d.names - {src})]
  }

  function EndDisk(d: Disk, src: Path, dst: Path, output: Inode, pos: nat, env: Outcomes): Disk
    requires output in d.data && pos <= |d.data[output]|
  {
    var ends := Endings(d, src, dst, output, pos, env);
    if ends == [] then d else ends[|ends| - 1]
  }

  /** What is left: without src after a success, without dst after a failed copy, if it could be
      removed, and otherwise with both; only a failed close may take bytes away. */
  lemma EndsInPlainTerms(d: Disk, src: Path, dst: Path, output: Inode, pos: nat, env: Outcomes)
    requires output in d.data && pos <= |d.data[output]|
    ensures var failed, end := env.copyFailsAt.Some? && env.copyFailsAt.value <= pos, EndDisk(d, src, dst, output, pos, env);
      && (env.Completes(pos) <==> !failed && env.closeOk && env.removeSrcOk)
      && (env.Completes(pos) ==> end.names == d.names - {src})
      && (failed ==> end.names == if env.removeDstOk then d.names - {dst} else d.names)
      && (!env.Completes(pos) && !failed ==> end.names == d.names)
      && (failed || env.closeOk ==> end.data == d.data)
  {
  }

  function EndPhases(pos: nat, env: Outcomes): seq<Phase> {
    if env.FailsAt(pos) then (if env.removeDstOk then [AtSource] else [])
    else if !env.closeOk then [Copying]
    else if !env.removeSrcOk then [AtBoth]
    else [AtBoth, AtDest]
  }

  lemma EndingsFit(log: seq<Disk>, at: nat, phases: seq<Phase>, src: Path, dst: Path, b: Bytes,
                   d: Disk, output: Inode, pos: nat, env: Outcomes)
    requires History(log, at, phases, src, dst, b) && phases[|phases| - 1] == Copying && log[|log| - 1] == d
    requires IsFile(d, src) && src != dst && output in d.data && pos <= |d.data[output]|
    requires Opened(d, dst) == Some(output) && d.names[src].inode != output
    requires !env.FailsAt(pos) ==> d.data[output] == b
    ensures History(log + Endings(d, src, dst, output, pos, env), at, phases + EndPhases(pos, env), src, dst, b)
    ensures env.Completes(pos) <==> (phases + EndPhases(pos, env))[|phases + EndPhases(pos, env)| - 1] == AtDest
  {
    var ends := Endings(d, src, dst, output, pos, env);
    if env.FailsAt(pos) {
      if env.removeDstOk {
        Extend(log, at, phases, src, dst, b, ends[0], AtSource);
      } else {
        assert log + ends == log && phases + EndPhases(pos, env) == phases;
      }
    } else if !env.closeOk {
      Extend(log, at, phases, src, dst, b, ends[0], Copying);
    } else {
      Extend(log, at, phases, src, dst, b, d, AtBoth);
      if env.removeSrcOk {
        FollowWithout(d.names, dst, MAX_LINKS, src);
        Extend(log + [d], at, phases + [AtBoth], src, dst, b, ends[1], AtDest);
        assert log + [d] + [ends[1]] == log + ends && phases + [AtBoth] + [AtDest] == phases + EndPhases(pos, env);
      }
    }
  }

  lemma Ended(log: seq<Disk>, before: seq<Disk>, at: nat, ended: seq<Phase>, phases: seq<Phase>, src: Path, dst: Path,
              b: Bytes, d: Disk, output: Inode, pos: nat, env: Outcomes)
    requires History(before, at, phases, src, dst, b) && phases[|phases| - 1] == Copying && before[|before| - 1] == d
    requires IsFile(d, src) && src != dst && output in d.data && pos <= |d.data[output]|
    requires Opened(d, dst) == Some(output) && d.names[src].inode != output
    requires !env.FailsAt(pos) ==> d.data[output] == b
    requires log == before + Endings(d, src, dst, output, pos, env) && ended == phases + EndPhases(pos, env)
    ensures History(log, at, ended, src, dst, b) && (env.Completes(pos) <==> ended[|ended| - 1] == AtDest)
  {
    EndingsFit(before, at, phases, src, dst, b, d, output, pos, env);
  }

  /** The snapshots of a copy whose truncating open reaches src: nothing is copied. */
  function EmptiedMove(d: Disk, src: Path, dst: Path, unused: Inode, env: Outcomes): (log: seq<Disk>)
    requires WellFormed(d) && Opened(d, dst).Some?
    ensures log != []
  {
    [d] + AfterEmptying(d, src, dst, unused, env)
  }

  function AfterEmptying(d: Disk, src: Path, dst: Path, unused: Inode, env: Outcomes): (log: seq<Disk>)
    requires WellFormed(d) && Opened(d, dst).Some?
    ensures log != []
  {
    var t := Truncated(d, dst, unused);
    [t] + Endings(t, src, dst, Opened(d, dst).value, 0, env)
  }

  /** What becomes of the bytes when the open of dst reaches src. */
  lemma ReachingMove(d: Disk, src: Path, dst: Path, unused: Inode, env: Outcomes, b: Bytes)
    requires WellFormed(d) && src != dst && Reaches(d, src, dst) && HasBytes(d, src, b)
    ensures var log := EmptiedMove(d, src, dst, unused, env);
      var end := log[|log| - 1];
      && ((forall k :: 0 <= k < |log| ==> InCustody(log[k], src, dst, b))
          <==> b == [] && (Resolve(d, dst) != Some(src) || !env.Completes(0)))
      && (env.Completes(0) ==>
            src !in end.names && (HasBytes(end, dst, b) <==> b == [] && Resolve(d, dst) != Some(src)))
      && (!env.Completes(0) ==> (HasBytes(end, src, b) <==> b == []))
      && (b != [] ==> !InCustody(end, src, dst, b))
  {
    var t, i := Truncated(d, dst, unused), Opened(d, dst).value;
    var log := EmptiedMove(d, src, dst, unused, env);
    TruncatedOpens(d, dst, unused);
    assert t.data[i] == [] && IsFile(t, src) && t.names[src].inode == i;
    assert log[0] == d && log[1] == t;
    assert !env.FailsAt(0) && !env.closeOk ==> t.data[i][..0] == [];
    if env.Completes(0) {
      assert log[3] == t.(names := t.names - {src});
      AfterRemoval(t, src, dst, i);
    }
  }

  lemma AfterRemoval(t: Disk, src: Path, dst: Path, i: Inode)
    requires WellFormed(t) && IsFile(t, src) && Opened(t, dst) == Some(i) && Resolve(t, dst).Some?
    ensures var end := t.(names := t.names - {src});
      && Opened(end, src).None?
      && (Resolve(t, dst) == Some(src) ==> Opened(end, dst).None?)
      && (Resolve(t, dst) != Some(src) ==> Opened(end, dst) == Some(i))
  {
    if Resolve(t, dst) == Some(src) {
      FollowDangling(t.names, dst, MAX_LINKS);
    } else {
      FollowWithout(t.names, dst, MAX_LINKS, src);
    }
  }

  /** Every other name stays, and every other file keeps its bytes; a new name can only
      appear where dst leads. */
  ghost predicate Elsewhere(d: Disk, e: Disk, src: Path, dst: Path) {
    && (forall p :: p in d.names && p != src && p != dst ==> p in e.names && e.names[p] == d.names[p])
    && (forall p :: p in e.names && p !in d.names ==> p == dst || Some(p) == Resolve(d, dst))
    && (forall i :: i in d.data && Opened(d, dst) != Some(i) ==> i in e.data && e.data[i] == d.data[i])
  }

  lemma CopyElsewhere(d: Disk, copied: Disk, src: Path, dst: Path, unused: Inode, output: Inode, pos: nat, env: Outcomes)
    requires WellFormed(d) && Resolve(d, dst).Some? && unused !in d.data
    requires output == if Opened(d, dst).Some? then Opened(d, dst).value else unused
    requires var t := Truncated(d, dst, unused);
      copied.names == t.names && output in copied.data && copied.data == t.data[output := copied.data[output]]
    requires pos <= |copied.data[output]|
    ensures Elsewhere(d, EndDisk(copied, src, dst, output, pos, env), src, dst)
  {
    TruncatedOpens(d, dst, unused);
    FollowEnds(d.names, dst, MAX_LINKS);
  }

  /** What a move that made the snapshots `log[at..]` and returned nil or not (`ok`) has done to a
      regular file: the bytes are complete at one end at every snapshot, a nil return means dst
      has them and src is gone, and an error means src still has them, each with its exact
      exceptions: the lossy moves, and for a nil return also a rename onto a hard link, which
      does nothing. Of a symbolic link it says that the rename moves the link, not the bytes. */
  ghost predicate MoveResult(log: seq<Disk>, at: nat, phases: seq<Phase>, ok: bool,
                             src: Path, dst: Path, env: Outcomes, b: Bytes)
    requires at < |log| && WellFormed(log[at])
  {
    var start, end := log[at], log[|log| - 1];
    && (IsFile(start, src) ==>
          && ((forall k :: at <= k < |log| ==> InCustody(log[k], src, dst, b)) <==> !Loses(start, src, dst, env, b))
          && (ok ==> ((HasBytes(end, dst, b) && src !in end.names) <==>
                      (!(env.renameOk && HardLinked(start, src, dst)) && !Loses(start, src, dst, env, b))))
          && (!ok ==> (HasBytes(end, src, b) <==> !Loses(start, src, dst, env, b)))
          && (!Reaches(start, src, dst) ==>
                History(log, at, phases, src, dst, b) && (ok <==> phases[|phases| - 1] == AtDest))
          && (env.mkdirOk && env.renameOk && HardLinked(start, src, dst) ==> ok && end == start)
          && (env.Truncates() && Reaches(start, src, dst) ==>
                (ok <==> env.Completes(0)) && log[at..] == EmptiedMove(start, src, dst, env.freshInode, env)))
    && (src in start.names && start.names[src].Link? && env.mkdirOk && env.renameOk ==>
          ok && end == Disk(start.names[dst := start.names[src]] - {src}, start.data))
  }

  /** What comes of copying `b`: success exactly if no call fails, and a failed copy is removed. */
  ghost predicate CopyResult(end: Disk, ok: bool, dst: Path, env: Outcomes, b: Bytes) {
    var failed := env.copyFailsAt.Some? && env.copyFailsAt.value <= |b|;
    && (ok <==> !failed && env.closeOk && env.removeSrcOk)
    && (failed && env.removeDstOk ==> dst !in end.names)
  }

  lemma CopyEnds(d: Disk, src: Path, dst: Path, output: Inode, pos: nat, env: Outcomes, b: Bytes)
    requires output in d.data && pos <= |d.data[output]|
    requires env.FailsAt(pos) <==> env.copyFailsAt.Some? && env.copyFailsAt.value <= |b|
    ensures CopyResult(EndDisk(d, src, dst, output, pos, env), env.Completes(pos), dst, env, b)
  {
    EndsInPlainTerms(d, src, dst, output, pos, env);
  }

  lemma EndedTame(log: seq<Disk>, before: seq<Disk>, at: nat, phases: seq<Phase>, src: Path, dst: Path,
                  b: Bytes, d: Disk, output: Inode, pos: nat, env: Outcomes)
    requires History(before, at, phases, src, dst, b) && phases[|phases| - 1] == Copying && before[|before| - 1] == d
    requires IsFile(d, src) && src != dst && output in d.data && pos <= |d.data[output]|
    requires Opened(d, dst) == Some(output) && d.names[src].inode != output
    requires !env.FailsAt(pos) ==> d.data[output] == b
    requires env.FailsAt(pos) <==> env.copyFailsAt.Some? && env.copyFailsAt.value <= |b|
    requires log == before + Endings(d, src, dst, output, pos, env)
    ensures var ended := phases + EndPhases(pos, env);
      History(log, at, ended, src, dst, b) && (env.Completes(pos) <==> ended[|ended| - 1] == AtDest)
    ensures CopyResult(EndDisk(d, src, dst, output, pos, env), env.Completes(pos), dst, env, b)
  {
    Ended(log, before, at, phases + EndPhases(pos, env), phases, src, dst, b, d, output, pos, env);
    CopyEnds(d, src, dst, output, pos, env, b);
  }

  lemma EmptiedEnds(past: seq<Disk>, start: Disk, before: seq<Disk>, log: seq<Disk>, src: Path, dst: Path,
                    env: Outcomes, output: Inode)
    requires WellFormed(start) && Resolve(start, dst).Some? && Opened(start, dst) == Some(output)
    requires before == past + [Truncated(start, dst, env.freshInode)]
    requires log == before + Endings(Truncated(start, dst, env.freshInode), src, dst, output, 0, env)
    ensures log == past + AfterEmptying(start, src, dst, env.freshInode, env)
  {
  }

  lemma Refused(log: seq<Disk>, at: nat, src: Path, dst: Path, env: Outcomes, b: Bytes)
    requires |log| == at + 1 && WellFormed(log[at]) && src != dst
    requires IsFile(log[at], src) ==> HasBytes(log[at], src, b)
    requires !env.mkdirOk || (env.renameOk ==> src !in log[at].names)
    requires !env.mkdirOk || !env.openSrcOk || !env.openDstOk || Opened(log[at], src).None? || Resolve(log[at], dst).None?
    ensures MoveResult(log, at, [AtSource], false, src, dst, env, b)
  {
    if IsFile(log[at], src) {
      assert Opened(log[at], src).Some?;
    }
  }

  lemma Copied(log: seq<Disk>, at: nat, phases: seq<Phase>, ok: bool, src: Path, dst: Path, env: Outcomes, b: Bytes)
    requires at < |log| && WellFormed(log[at]) && src != dst && env.mkdirOk && (env.renameOk ==> src !in log[at].names)
    requires !Reaches(log[at], src, dst)
    requires IsFile(log[at], src) ==> History(log, at, phases, src, dst, b) && (ok <==> phases[|phases| - 1] == AtDest)
    ensures MoveResult(log, at, phases, ok, src, dst, env, b)
  {
    if IsFile(log[at], src) {
      forall k | at <= k < |log| ensures InCustody(log[k], src, dst, b) {
        assert Fits(phases[k - at], log[at], log[k], src, dst, b);
      }
      var last := |log| - 1;
      assert Fits(phases[last - at], log[at], log[last], src, dst, b);
    }
  }

  lemma Renamed(log: seq<Disk>, at: nat, phases: seq<Phase>, src: Path, dst: Path, env: Outcomes, b: Bytes)
    requires |log| == at + 2 && WellFormed(log[at]) && src != dst && env.mkdirOk && env.renameOk
    requires src in log[at].names && (IsFile(log[at], src) ==> HasBytes(log[at], src, b)) && phases == [AtSource, AtDest]
    requires log[at + 1] == if HardLinked(log[at], src, dst) then log[at]
                            else Disk(log[at].names[dst := log[at].names[src]] - {src}, log[at].data)
    ensures MoveResult(log, at, phases, true, src, dst, env, b)
  {
  }

  lemma Reached(log: seq<Disk>, at: nat, phases: seq<Phase>, ok: bool, src: Path, dst: Path, env: Outcomes, b: Bytes)
    requires at < |log| && WellFormed(log[at]) && src != dst && env.Truncates()
    requires Reaches(log[at], src, dst) && HasBytes(log[at], src, b) && (ok <==> env.Completes(0))
    requires log == log[..at + 1] + AfterEmptying(log[at], src, dst, env.freshInode, env)
    ensures MoveResult(log, at, phases, ok, src, dst, env, b)
  {
    var moved := EmptiedMove(log[at], src, dst, env.freshInode, env);
    ReachingMove(log[at], src, dst, env.freshInode, env, b);
    assert log[at..] == moved by {
      assert log[..at + 1] == log[..at] + [log[at]];
    }
    forall k | 0 <= k < |moved| ensures moved[k] == log[at + k] {
    }
    forall k | at <= k < |log| ensures log[k] == moved[k - at] {
    }
  }

  class FileSystem {
    var disk: Disk
    ghost var log: seq<Disk>

    ghost predicate Valid() reads this {
      WellFormed(disk) && log != [] && log[|log| - 1] == disk
    }

    constructor (disk: Disk)
      requires WellFormed(disk)
      ensures Valid() && this.disk == disk && log == [disk]
    {
      this.disk, log := disk, [disk];
    }

    /** rename(2): it does not follow links, and leaves two hard links to one file alone. */
    method Rename(src: Path, dst: Path)
      requires Valid() && src in disk.names
      modifies this
      ensures Valid() && log == old(log) + [disk]
      ensures HardLinked(old(disk), src, dst) ==> disk == old(disk)
      ensures !HardLinked(old(disk), src, dst) ==>
        disk == Disk(old(disk.names[dst := disk.names[src]] - {src}), old(disk.data))
    {
      if !(disk.names[src].File? && dst in disk.names && disk.names[dst] == disk.names[src]) {
        disk := disk.(names := disk.names[dst := disk.names[src]] - {src});
      }
      log := log + [disk];
    }

    /** open(2) with O_CREAT|O_TRUNC: empties the file dst leads to, or makes a new one there. */
    method OpenTruncated(dst: Path, unused: Inode) returns (ino: Inode)
      requires Valid() && unused !in disk.data && Resolve(disk, dst).Some?
      modifies this
      ensures Valid() && log == old(log) + [disk] && disk == Truncated(old(disk), dst, unused)
      ensures Opened(disk, dst) == Some(ino)
    {
      TruncatedOpens(disk, dst, unused);
      ino := if Opened(disk, dst).Some? then Opened(disk, dst).value else unused;
      disk := Disk(disk.names[Resolve(disk, dst).value := File(ino)], disk.data[ino := []]);
      log := log + [disk];
    }

    method SetData(ino: Inode, b: Bytes)
      requires Valid() && ino in disk.data
      modifies this
      ensures Valid() && log == old(log) + [disk]
      ensures disk == old(disk).(data := old(disk.data)[ino := b])
    {
      disk := disk.(data := disk.data[ino := b]);
      log := log + [disk];
    }

    /** A call that reports success and leaves names and data as they are. */
    ghost method Unchanged()
      requires Valid()
      modifies this`log
      ensures Valid() && log == old(log) + [disk]
    {
      log := log + [disk];
    }

    method Unlink(p: Path)
      requires Valid()
      modifies this
      ensures Valid() && log == old(log) + [disk]
      ensures disk == old(disk).(names := old(disk.names) - {p})
    {
      disk := disk.(names := disk.names - {p});
      log := log + [disk];
    }

    /** io.Copy from the open inode of src to the one of dst. When they are one inode it is
        already empty and nothing is written. `tame`: src is another regular file. */
    method CopyLoop(input: Inode, output: Inode, env: Outcomes, ghost tame: bool, ghost at: nat, ghost phases: seq<Phase>,
                    ghost src: Path, ghost dst: Path, ghost b: Bytes)
      returns (pos: nat, ghost phases': seq<Phase>)
      requires Valid() && env.chunk > 0 && input in disk.data && output in disk.data && disk.data[output] == []
      requires tame ==>
        && input != output && IsFile(disk, src) && disk.names[src].inode == input && disk.data[input] == b
        && dst in disk.names && History(log, at, phases, src, dst, b) && phases[|phases| - 1] == Copying
      modifies this
      ensures Valid() && old(log) <= log && disk.names == old(disk.names)
      ensures input in disk.data && pos <= |disk.data[input]| && disk.data[input] == old(disk.data[input])
      ensures disk.data == old(disk.data)[output := disk.data[input][..pos]]
      ensures env.FailsAt(pos) || pos == |disk.data[input]|
      ensures input == output ==> log == old(log) && pos == 0
      ensures tame ==> History(log, at, phases', src, dst, b) && phases'[|phases'| - 1] == Copying
    {
      pos, phases' := 0, phases;
      while pos < |disk.data[input]| && !env.FailsAt(pos)
        invariant Valid() && old(log) <= log && disk.names == old(disk.names)
        invariant input in disk.data && pos <= |disk.data[input]| && disk.data[input] == old(disk.data[input])
        invariant disk.data == old(disk.data)[output := disk.data[input][..pos]]
        invariant input == output ==> log == old(log) && pos == 0
        invariant tame ==> History(log, at, phases', src, dst, b) && phases'[|phases'| - 1] == Copying
      {
        var next := if pos + env.chunk < |disk.data[input]| then pos + env.chunk else |disk.data[input]|;
        assert disk.data[input][..pos] + disk.data[input][pos..next] == disk.data[input][..next];
        ghost var before := log;
        SetData(output, disk.data[output] + disk.data[input][pos..next]);
        if tame {
          Extend(before, at, phases', src, dst, b, disk, Copying);
        }
        phases' := phases' + [Copying];
        pos := next;
      }
    }

    /** moveFile after the copy loop: close dst and remove src, or clean up. */
    method FinishCopy(src: Path, dst: Path, output: Inode, pos: nat, env: Outcomes) returns (ok: bool)
      requires Valid() && output in disk.data && pos <= |disk.data[output]|
      modifies this
      ensures Valid() && log == old(log) + Endings(old(disk), src, dst, output, pos, env)
      ensures disk == EndDisk(old(disk), src, dst, output, pos, env)
      ensures ok <==> env.Completes(pos)
    {
      ok := false;
      if env.FailsAt(pos) {
        if env.removeDstOk {
          Unlink(dst);
        }
        return;
      }
      if !env.closeOk {
        SetData(output, disk.data[output][..if env.closeKeeps < pos then env.closeKeeps else pos]);
        return;
      }
      Unchanged();
      if !env.removeSrcOk {
        return;
      }
      Unlink(src);
      ok := true;
    }

    /** moveFile from the opening of dst to the end of the copy loop. */
    method OpenAndCopy(src: Path, dst: Path, env: Outcomes, ghost b: Bytes, ghost tame: bool)
      returns (output: Inode, pos: nat, ghost phases: seq<Phase>)
      requires Valid() && env.chunk > 0 && env.freshInode !in disk.data
      requires src != dst && Opened(disk, src).Some? && Resolve(disk, dst).Some?
      requires tame ==> IsFile(disk, src) && !Reaches(disk, src, dst) && HasBytes(disk, src, b)
      modifies this
      ensures Valid() && old(log) <= log && Opened(disk, dst) == Some(output)
      ensures output == if Opened(old(disk), dst).Some? then Opened(old(disk), dst).value else env.freshInode
      ensures var t := Truncated(old(disk), dst, env.freshInode);
        disk.names == t.names && output in disk.data && disk.data == t.data[output := disk.data[output]]
      ensures pos <= |disk.data[output]| && (env.copyFailsAt.None? ==> !env.FailsAt(pos))
      ensures tame ==>
        && History(log, |old(log)| - 1, phases, src, dst, b) && phases[|phases| - 1] == Copying
        && IsFile(disk, src) && disk.names[src].inode != output && (!env.FailsAt(pos) ==> disk.data[output] == b)
        && (env.FailsAt(pos) <==> env.copyFailsAt.Some? && env.copyFailsAt.value <= |b|)
      ensures Reaches(old(disk), src, dst) ==>
        pos == 0 && log == old(log) + [Truncated(old(disk), dst, env.freshInode)] && disk == log[|old(log)|]
    {
      phases := [AtSource];
      ghost var at := |log| - 1;
      var input := Opened(disk, src).value;
      FollowEnds(disk.names, src, MAX_LINKS);
      TruncatedOpens(disk, dst, env.freshInode);
      output := OpenTruncated(dst, env.freshInode);
      if tame {
        Extend(old(log), at, phases, src, dst, b, disk, Copying);
      }
      phases := phases + [Copying];
      pos, phases := CopyLoop(input, output, env, tame, at, phases, src, dst, b);
    }

    /** moveFile from the opening of dst on. */
    method CopyAcross(src: Path, dst: Path, env: Outcomes, ghost b: Bytes)
      returns (ok: bool, ghost phases: seq<Phase>)
      requires Valid() && env.chunk > 0 && env.freshInode !in disk.data
      requires src != dst && Opened(disk, src).Some? && Resolve(disk, dst).Some?
      requires IsFile(disk, src) ==> HasBytes(disk, src, b)
      modifies this
      ensures Valid() && old(log) <= log && Elsewhere(old(disk), disk, src, dst)
      ensures IsFile(old(disk), src) && !Reaches(old(disk), src, dst) ==>
        History(log, |old(log)| - 1, phases, src, dst, b) && (ok <==> phases[|phases| - 1] == AtDest)
      ensures Reaches(old(disk), src, dst) ==>
        log == old(log) + AfterEmptying(old(disk), src, dst, env.freshInode, env) && (ok <==> env.Completes(0))
      ensures env.copyFailsAt.None? && env.closeOk && env.removeSrcOk ==> ok
      ensures IsFile(old(disk), src) && !Reaches(old(disk), src, dst) ==> CopyResult(disk, ok, dst, env, b)
    {
      ghost var start, tame := disk, IsFile(disk, src) && !Reaches(disk, src, dst);
      var output, pos;
      output, pos, phases := OpenAndCopy(src, dst, env, b, tame);
      CopyElsewhere(start, disk, src, dst, env.freshInode, output, pos, env);
      ghost var ended := log + Endings(disk, src, dst, output, pos, env);
      if tame {
        EndedTame(ended, log, |old(log)| - 1, phases, src, dst, b, disk, output, pos, env);
      }
      if Reaches(start, src, dst) {
        EmptiedEnds(old(log), start, log, ended, src, dst, env, output);
      }
      phases := phases + EndPhases(pos, env);
      ok := FinishCopy(src, dst, output, pos, env);
    }

    /** moveFile. What it does is said of its snapshots. */
    method MoveFile(src: Path, dst: Path, env: Outcomes, ghost b: Bytes) returns (ok: bool, ghost phases: seq<Phase>)
      requires Valid() && env.chunk > 0 && env.freshInode !in disk.data && src != dst
      requires IsFile(disk, src) ==> HasBytes(disk, src, b)
      modifies this
      ensures Valid() && old(log) <= log && Elsewhere(old(disk), disk, src, dst)
      ensures src !in old(disk.names) ==> !ok && disk == old(disk)
      ensures MoveResult(log, |old(log)| - 1, phases, ok, src, dst, env, b)
      ensures !env.mkdirOk || (!env.renameOk && (!env.openSrcOk || !env.openDstOk)) ==> !ok && disk == old(disk)
      ensures env.Truncates() && IsFile(old(disk), src) && !Reaches(old(disk), src, dst) && Resolve(old(disk), dst).Some? ==>
        CopyResult(disk, ok, dst, env, b)
      ensures env.AllOk() && Opened(old(disk), src).Some? && Resolve(old(disk), dst).Some? ==> ok
    {
      ok, phases := false, [AtSource];
      ghost var at := |log| - 1;
      if !env.mkdirOk {
        Refused(log, at, src, dst, env, b);
        return;
      }
      if env.renameOk && src in disk.names {
        Rename(src, dst);
        phases := phases + [AtDest];
        ok := true;
        Renamed(log, at, phases, src, dst, env, b);
        return;
      }
      ok, phases := CopyInstead(src, dst, env, b);
    }

    /** moveFile when nothing was renamed. */
    method CopyInstead(src: Path, dst: Path, env: Outcomes, ghost b: Bytes) returns (ok: bool, ghost phases: seq<Phase>)
      requires Valid() && env.chunk > 0 && env.freshInode !in disk.data && src != dst
      requires IsFile(disk, src) ==> HasBytes(disk, src, b)
      requires env.mkdirOk && (env.renameOk ==> src !in disk.names)
      modifies this
      ensures Valid() && old(log) <= log && Elsewhere(old(disk), disk, src, dst)
      ensures src !in old(disk.names) ==> !ok && disk == old(disk)
      ensures MoveResult(log, |old(log)| - 1, phases, ok, src, dst, env, b)
      ensures !env.openSrcOk || !env.openDstOk ==> !ok && disk == old(disk)
      ensures env.Truncates() && IsFile(old(disk), src) && !Reaches(old(disk), src, dst) && Resolve(old(disk), dst).Some? ==>
        CopyResult(disk, ok, dst, env, b)
      ensures env.AllOk() && Opened(old(disk), src).Some? && Resolve(old(disk), dst).Some? ==> ok
    {
      ok, phases := false, [AtSource];
      if !env.openSrcOk || Opened(disk, src).None? || !env.openDstOk || Resolve(disk, dst).None? {
        Refused(log, |log| - 1, src, dst, env, b);
        return;
      }
      ok, phases := CopyAcross(src, dst, env, b);
      if Reaches(old(disk), src, dst) {
        Reached(log, |old(log)| - 1, phases, ok, src, dst, env, b);
      } else {
        Copied(log, |old(log)| - 1, phases, ok, src, dst, env, b);
      }
    }
  }

  /** The payload at `src` while the original path has become a symbolic link to it, on another
      file system: every call after the rename succeeds, moveFile returns nil, and nothing
      holds the bytes any more. With a hard link and a rename that is refused, both names
      are left on an empty file. */
  method LossyMoves(src: Path, dst: Path, b: Bytes) returns (linked: Disk, linkedOk: bool, hard: Disk, hardOk: bool)
    requires src != dst && b != []
    ensures linkedOk && linked.names == map[dst := Link(src)] && !InCustody(linked, src, dst, b)
    ensures !hardOk && hard == Disk(map[src := File(0), dst := File(0)], map[0 := []])
  {
    var allOk := Outcomes(true, false, true, true, 1, 1, None, true, true, 0, true);
    var link := Disk(map[src := File(0), dst := Link(src)], map[0 := b]);
    assert Follow(link.names, dst, MAX_LINKS) == Follow(link.names, src, MAX_LINKS - 1) == Some(src);
    linked, linkedOk := Moved(link, src, dst, allOk, b);
    var twice := Disk(map[src := File(0), dst := File(0)], map[0 := b]);
    hard, hardOk := Moved(twice, src, dst, allOk.(removeSrcOk := false), b);
  }

  method Moved(start: Disk, src: Path, dst: Path, env: Outcomes, ghost b: Bytes) returns (end: Disk, ok: bool)
    requires WellFormed(start) && src != dst && env.chunk > 0 && env.freshInode !in start.data && HasBytes(start, src, b)
    requires Reaches(start, src, dst) && env.Truncates()
    ensures end == var log := EmptiedMove(start, src, dst, env.freshInode, env); log[|log| - 1]
    ensures ok <==> env.Completes(0)
    ensures b != [] ==> !InCustody(end, src, dst, b)
  {
    var fs := new FileSystem(start);
    ghost var phases;
    ok, phases := fs.MoveFile(src, dst, env, b);
    end := fs.disk;
    ReachingMove(start, src, dst, env.freshInode, env, b);
    assert fs.log[0..] == fs.log && fs.log[0] == start;
  }
}
