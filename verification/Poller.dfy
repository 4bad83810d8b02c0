/** Python's order on strings, and sorted() of a set. */
module StringOrder {
  predicate Leq(a: string, b: string) {
    a == "" || (b != "" && (a[0] < b[0] || (a[0] == b[0] && Leq(a[1..], b[1..]))))
  }

  /** It is the dictionary order of the characters. */
  lemma {:induction false} LeqIs(a: string, b: string)
    ensures Leq(a, b) <==> a <= b || exists k :: FirstSmaller(a, b, k)
  {
    if a != "" && b != "" && a[0] == b[0] {
      LeqIs(a[1..], b[1..]);
      assert a <= b <==> a[1..] <= b[1..];
      if k: nat :| FirstSmaller(a[1..], b[1..], k) {
        assert a[..k + 1] == [a[0]] + a[1..][..k] && b[..k + 1] == [b[0]] + b[1..][..k];
        assert FirstSmaller(a, b, k + 1);
      }
      if k: nat :| FirstSmaller(a, b, k) {
        assert k > 0;
        assert a[1..][..k - 1] == a[..k][1..] && b[1..][..k - 1] == b[..k][1..];
        assert FirstSmaller(a[1..], b[1..], k - 1);
      }
    } else if a != "" && b != "" {
      assert a[0] < b[0] ==> FirstSmaller(a, b, 0);
      if k: nat :| FirstSmaller(a, b, k) {
        assert k > 0 ==> a[..k][0] == b[..k][0];
      }
    }
  }

  predicate FirstSmaller(a: string, b: string, k: nat) {
    k < |a| && k < |b| && a[..k] == b[..k] && a[k] < b[k]
  }

  lemma {:induction false} LeqTotal(a: string, b: string)
    ensures Leq(a, b) || Leq(b, a)
  {
    if a != "" && b != "" {
      LeqTotal(a[1..], b[1..]);
    }
  }

  lemma {:induction false} LeqAntisymmetric(a: string, b: string)
    requires Leq(a, b) && Leq(b, a)
    ensures a == b
  {
    if a != "" {
      LeqAntisymmetric(a[1..], b[1..]);
      assert a == [a[0]] + a[1..] && b == [b[0]] + b[1..];
    }
  }

  lemma {:induction false} LeqTransitive(a: string, b: string, c: string)
    requires Leq(a, b) && Leq(b, c)
    ensures Leq(a, c)
  {
    if a != "" && a[0] == b[0] == c[0] {
      LeqTransitive(a[1..], b[1..], c[1..]);
    }
  }

  predicate Least(s: set<string>, m: string) {
    m in s && forall x :: x in s ==> Leq(m, x)
  }

  lemma {:induction false} LeastExists(s: set<string>)
    requires s != {}
    ensures exists m :: Least(s, m)
  {
    var x :| x in s;
    LeqTotal(x, x);
    if s == {x} {
      assert Least(s, x);
    } else {
      LeastExists(s - {x});
      var m :| Least(s - {x}, m);
      LeqTotal(x, m);
      if Leq(m, x) {
        assert Least(s, m);
      } else {
        forall y | y in s ensures Leq(x, y) {
          if y != x {
            LeqTransitive(x, m, y);
          }
        }
        assert Least(s, x);
      }
    }
  }

  function Minimum(s: set<string>): (m: string)
    requires s != {}
    ensures Least(s, m)
  {
    LeastExists(s);
    assert forall m, n :: Least(s, m) && Least(s, n) ==> m == n by {
      forall m, n | Least(s, m) && Least(s, n) ensures m == n {
        LeqAntisymmetric(m, n);
      }
    }
    var m :| Least(s, m);
    m
  }

  predicate Ascending(r: seq<string>) {
    forall i, j :: 0 <= i < j < |r| ==> Leq(r[i], r[j]) && r[i] != r[j]
  }

  function Sorted(s: set<string>): (r: seq<string>)
    ensures forall x :: x in r <==> x in s
    ensures Ascending(r)
  {
    if s == {} then [] else
      var m := Minimum(s);
      [m] + Sorted(s - {m})
  }
}

/** monitored-endpoint/differ.py and poller.py. */
module Poller {
  import opened Options
  import opened Sequences
  import opened StringOrder

  datatype Address = Address(ip: string, port: int)
  datatype Snapshot = Snapshot(processes: map<string, string>, connections: map<string, Address>, files: set<string>)

  /** A reported event; the connection's key is not printed. */
  datatype Raw = Spawn(pid: string, name: string) | Connect(key: string, address: Address) | Write(path: string)

  const OWN_PROCESSES: set<string> := {"python3", "ps", "ss"}

  /** sorted(set(curr) - set(prev)) */
  function NewKeys<V>(prev: map<string, V>, curr: map<string, V>): (keys: seq<string>)
    ensures forall i :: 0 <= i < |keys| ==> keys[i] in curr
    ensures forall k :: k in keys <==> k in curr && k !in prev
    ensures Ascending(keys)
  {
    var keys := Sorted(curr.Keys - prev.Keys);
    assert forall i :: 0 <= i < |keys| ==> keys[i] in keys;
    keys
  }

  function Spawns(pids: seq<string>, curr: map<string, string>): seq<Raw>
    requires forall i :: 0 <= i < |pids| ==> pids[i] in curr
  {
    if pids == [] then []
    else
      var pid := pids[|pids| - 1];
      Spawns(pids[..|pids| - 1], curr) + if curr[pid] in OWN_PROCESSES then [] else [Spawn(pid, curr[pid])]
  }

  function Connects(keys: seq<string>, curr: map<string, Address>): seq<Raw>
    requires forall i :: 0 <= i < |keys| ==> keys[i] in curr
  {
    if keys == [] then []
    else
      var key := keys[|keys| - 1];
      Connects(keys[..|keys| - 1], curr) + [Connect(key, curr[key])]
  }

  function Writes(names: seq<string>): seq<Raw> {
    Map((name: string) => Write("/etc/" + name), names)
  }

  function Diff(prev: Snapshot, curr: Snapshot): seq<Raw> {
    Spawns(NewKeys(prev.processes, curr.processes), curr.processes)
    + Connects(NewKeys(prev.connections, curr.connections), curr.connections)
    + Writes(Sorted(curr.files - prev.files))
  }

  method DiffSnapshots(prev: Snapshot, curr: Snapshot) returns (events: seq<Raw>)
    ensures events == Diff(prev, curr)
  {
    events := DiffProcesses(prev.processes, curr.processes);
    var connects := DiffConnections(prev.connections, curr.connections);
    var writes := DiffFiles(prev.files, curr.files);
    events := events + connects + writes;
  }

  lemma NextSpawn(pids: seq<string>, curr: map<string, string>, i: nat)
    requires i < |pids| && forall i :: 0 <= i < |pids| ==> pids[i] in curr
    ensures var before := Spawns(pids[..i], curr);
      Spawns(pids[..i + 1], curr) == if curr[pids[i]] in OWN_PROCESSES then before else before + [Spawn(pids[i], curr[pids[i]])]
  {
    assert pids[..i + 1][..i] == pids[..i];
    assert Spawns(pids[..i], curr) + [] == Spawns(pids[..i], curr);
  }

  /** The three loops of diff_snapshots. */
  method DiffProcesses(prev: map<string, string>, curr: map<string, string>) returns (events: seq<Raw>)
    ensures events == Spawns(NewKeys(prev, curr), curr)
  {
    events := SpawnEvents(NewKeys(prev, curr), curr);
  }

  method SpawnEvents(pids: seq<string>, curr: map<string, string>) returns (events: seq<Raw>)
    requires forall i :: 0 <= i < |pids| ==> pids[i] in curr
    ensures events == Spawns(pids, curr)
  {
    events := [];
    for i := 0 to |pids|
      invariant events == Spawns(pids[..i], curr)
    {
      NextSpawn(pids, curr, i);
      var name := curr[pids[i]];
      if name in OWN_PROCESSES {
        continue;
      }
      events := events + [Spawn(pids[i], name)];
    }
    assert pids[..|pids|] == pids;
  }

  method DiffConnections(prev: map<string, Address>, curr: map<string, Address>) returns (events: seq<Raw>)
    ensures events == Connects(NewKeys(prev, curr), curr)
  {
    events := [];
    var keys := NewKeys(prev, curr);
    for i := 0 to |keys|
      invariant events == Connects(keys[..i], curr)
    {
      assert keys[..i + 1][..i] == keys[..i];
      events := events + [Connect(keys[i], curr[keys[i]])];
    }
    assert keys[..|keys|] == keys;
  }

  method DiffFiles(prev: set<string>, curr: set<string>) returns (events: seq<Raw>)
    ensures events == Writes(Sorted(curr - prev))
  {
    events := [];
    var names := Sorted(curr - prev);
    for i := 0 to |names|
      invariant events == Writes(names[..i])
    {
      assert names[..i + 1][..i] == names[..i];
      events := events + [Write("/etc/" + names[i])];
    }
    assert names[..|names|] == names;
  }

  /** What a report can be about. */
  datatype Item = Process(pid: string) | Connection(key: string) | File(name: string)

  function About(item: Item): Raw -> bool {
    (raw: Raw) =>
      match item
      case Process(pid) => raw.Spawn? && raw.pid == pid
      case Connection(key) => raw.Connect? && raw.key == key
      case File(name) => raw == Write("/etc/" + name)
  }

  predicate Present(item: Item, s: Snapshot) {
    match item
    case Process(pid) => pid in s.processes
    case Connection(key) => key in s.connections
    case File(name) => name in s.files
  }

  /** Absent before and present now; the poller's own tools do not count. */
  predicate Appears(item: Item, prev: Snapshot, curr: Snapshot) {
    && !Present(item, prev) && Present(item, curr)
    && (item.Process? ==> curr.processes[item.pid] !in OWN_PROCESSES)
  }

  lemma LastIsNew(keys: seq<string>, key: string)
    requires keys != [] && Ascending(keys)
    ensures var last := |keys| - 1;
      && Ascending(keys[..last])
      && (key in keys <==> key in keys[..last] || key == keys[last])
      && !(key in keys[..last] && key == keys[last])
  {
    var last := |keys| - 1;
    assert keys == keys[..last] + [keys[last]];
  }

  lemma {:induction false} SpawnCount(pids: seq<string>, curr: map<string, string>, item: Item)
    requires Ascending(pids) && forall i :: 0 <= i < |pids| ==> pids[i] in curr
    ensures |Filter(About(item), Spawns(pids, curr))|
         == if item.Process? && item.pid in pids && curr[item.pid] !in OWN_PROCESSES then 1 else 0
  {
    if pids != [] {
      var last := |pids| - 1;
      var before, pid := Spawns(pids[..last], curr), pids[last];
      SpawnCount(pids[..last], curr, item);
      LastIsNew(pids, if item.Process? then item.pid else "");
      if curr[pid] !in OWN_PROCESSES {
        FilterAppend(About(item), before, Spawn(pid, curr[pid]));
        assert Spawns(pids, curr) == before + [Spawn(pid, curr[pid])];
      } else {
        assert Spawns(pids, curr) == before + [] == before;
      }
    }
  }

  lemma {:induction false} ConnectCount(keys: seq<string>, curr: map<string, Address>, item: Item)
    requires Ascending(keys) && forall i :: 0 <= i < |keys| ==> keys[i] in curr
    ensures |Filter(About(item), Connects(keys, curr))| == if item.Connection? && item.key in keys then 1 else 0
  {
    if keys != [] {
      var last := |keys| - 1;
      ConnectCount(keys[..last], curr, item);
      LastIsNew(keys, if item.Connection? then item.key else "");
      FilterAppend(About(item), Connects(keys[..last], curr), Connect(keys[last], curr[keys[last]]));
    }
  }

  lemma SamePath(a: string, b: string)
    ensures "/etc/" + a == "/etc/" + b <==> a == b
  {
    assert ("/etc/" + a)[5..] == a && ("/etc/" + b)[5..] == b;
  }

  lemma {:induction false} WriteCount(names: seq<string>, item: Item)
    requires Ascending(names)
    ensures |Filter(About(item), Writes(names))| == if item.File? && item.name in names then 1 else 0
  {
    if names != [] {
      var last := |names| - 1;
      WriteCount(names[..last], item);
      FilterAppend(About(item), Writes(names[..last]), Write("/etc/" + names[last]));
      if item.File? {
        SamePath(item.name, names[last]);
        LastIsNew(names, item.name);
      }
    }
  }

  /** A diff reports each item that appears exactly once, and nothing else about it. */
  lemma DiffCounts(prev: Snapshot, curr: Snapshot, item: Item)
    ensures |Filter(About(item), Diff(prev, curr))| == if Appears(item, prev, curr) then 1 else 0
  {
    var pids := NewKeys(prev.processes, curr.processes);
    var keys := NewKeys(prev.connections, curr.connections);
    var names := Sorted(curr.files - prev.files);
    var a, b, c := Spawns(pids, curr.processes), Connects(keys, curr.connections), Writes(names);
    FilterConcat(About(item), a + b, c);
    FilterConcat(About(item), a, b);
    SpawnCount(pids, curr.processes, item);
    ConnectCount(keys, curr.connections, item);
    WriteCount(names, item);
  }

  /** What a diff reports: the process, connection or file is new, and it is reported as it is now. */
  predicate Expected(raw: Raw, prev: Snapshot, curr: Snapshot) {
    match raw
    case Spawn(pid, name) =>
      pid !in prev.processes && pid in curr.processes && curr.processes[pid] == name && name !in {"python3", "ps", "ss"}
    case Connect(key, address) =>
      key !in prev.connections && key in curr.connections && curr.connections[key] == address
    case Write(path) => exists name :: name in curr.files && name !in prev.files && path == "/etc/" + name
  }

  /** Processes come first, then connections, then files, each kind in ascending order. */
  predicate Precedes(a: Raw, b: Raw) {
    match a
    case Spawn(pid, _) => b.Spawn? ==> Leq(pid, b.pid) && pid != b.pid
    case Connect(key, _) => !b.Spawn? && (b.Connect? ==> Leq(key, b.key) && key != b.key)
    case Write(path) => b.Write? && |path| >= 5 && |b.path| >= 5 && Leq(path[5..], b.path[5..]) && path != b.path
  }

  predicate InOrder(events: seq<Raw>) {
    forall i, j :: 0 <= i < j < |events| ==> Precedes(events[i], events[j])
  }

  lemma AddLast(front: seq<Raw>, raw: Raw)
    requires InOrder(front) && forall i :: 0 <= i < |front| ==> Precedes(front[i], raw)
    ensures InOrder(front + [raw])
  {
  }

  lemma {:induction false} SpawnsAre(pids: seq<string>, curr: map<string, string>)
    requires Ascending(pids) && forall i :: 0 <= i < |pids| ==> pids[i] in curr
    ensures InOrder(Spawns(pids, curr))
    ensures forall i :: 0 <= i < |Spawns(pids, curr)| ==> SpawnOf(Spawns(pids, curr)[i], pids, curr)
  {
    if pids != [] {
      var last := |pids| - 1;
      var front, pid := pids[..last], pids[last];
      SpawnsAre(front, curr);
      assert forall p :: p in front ==> p in pids && Leq(p, pid) && p != pid;
      if curr[pid] !in OWN_PROCESSES {
        AddLast(Spawns(front, curr), Spawn(pid, curr[pid]));
      } else {
        assert Spawns(pids, curr) == Spawns(front, curr);
      }
    }
  }

  predicate SpawnOf(raw: Raw, pids: seq<string>, curr: map<string, string>) {
    raw.Spawn? && raw.pid in pids && raw.pid in curr && curr[raw.pid] == raw.name && raw.name !in {"python3", "ps", "ss"}
  }

  lemma {:induction false} ConnectsAre(keys: seq<string>, curr: map<string, Address>)
    requires Ascending(keys) && forall i :: 0 <= i < |keys| ==> keys[i] in curr
    ensures InOrder(Connects(keys, curr))
    ensures forall i :: 0 <= i < |Connects(keys, curr)| ==> ConnectOf(Connects(keys, curr)[i], keys, curr)
  {
    if keys != [] {
      var last := |keys| - 1;
      var front, key := keys[..last], keys[last];
      ConnectsAre(front, curr);
      assert forall k :: k in front ==> k in keys && Leq(k, key) && k != key;
      AddLast(Connects(front, curr), Connect(key, curr[key]));
    }
  }

  predicate ConnectOf(raw: Raw, keys: seq<string>, curr: map<string, Address>) {
    raw.Connect? && raw.key in keys && raw.key in curr && curr[raw.key] == raw.address
  }

  lemma WritesAre(names: seq<string>)
    requires Ascending(names)
    ensures InOrder(Writes(names)) && |Writes(names)| == |names|
    ensures forall i :: 0 <= i < |names| ==> Writes(names)[i] == Write("/etc/" + names[i])
  {
    forall i | 0 <= i < |names| ensures Writes(names)[i] == Write("/etc/" + names[i]) {
      MapAt((name: string) => Write("/etc/" + name), names, i);
    }
    forall i, j | 0 <= i < j < |names| ensures Precedes(Writes(names)[i], Writes(names)[j]) {
      SamePath(names[i], names[j]);
    }
  }

  /** A diff reports exactly what is expected, in order; by DiffCounts nothing twice. */
  lemma DiffIsExact(prev: Snapshot, curr: Snapshot, raw: Raw)
    ensures raw in Diff(prev, curr) <==> Expected(raw, prev, curr)
    ensures InOrder(Diff(prev, curr))
  {
    var pids := NewKeys(prev.processes, curr.processes);
    var keys := NewKeys(prev.connections, curr.connections);
    var names := Sorted(curr.files - prev.files);
    SpawnsAre(pids, curr.processes);
    ConnectsAre(keys, curr.connections);
    WritesAre(names);
    if raw in Diff(prev, curr) {
      OnlyExpected(prev, curr, raw);
    }
    if Expected(raw, prev, curr) {
      AllExpected(prev, curr, raw);
    }
  }

  lemma OnlyExpected(prev: Snapshot, curr: Snapshot, raw: Raw)
    requires raw in Diff(prev, curr)
    ensures Expected(raw, prev, curr)
  {
    var pids := NewKeys(prev.processes, curr.processes);
    var keys := NewKeys(prev.connections, curr.connections);
    var names := Sorted(curr.files - prev.files);
    SpawnsAre(pids, curr.processes);
    ConnectsAre(keys, curr.connections);
    WritesAre(names);
    if raw in Writes(names) {
      var i :| 0 <= i < |names| && Writes(names)[i] == raw;
      assert names[i] in names;
    }
  }

  function ItemOf(raw: Raw): Item {
    match raw
    case Spawn(pid, _) => Process(pid)
    case Connect(key, _) => Connection(key)
    case Write(path) => File(if |path| >= 5 then path[5..] else "")
  }

  lemma ExpectedAppears(prev: Snapshot, curr: Snapshot, raw: Raw)
    requires Expected(raw, prev, curr)
    ensures Appears(ItemOf(raw), prev, curr)
  {
    if raw.Write? {
      var name :| name in curr.files && name !in prev.files && raw.path == "/etc/" + name;
      assert raw.path[5..] == name;
    }
  }

  lemma SameReport(prev: Snapshot, curr: Snapshot, raw: Raw, other: Raw)
    requires Expected(raw, prev, curr) && Expected(other, prev, curr) && About(ItemOf(raw))(other)
    ensures raw == other
  {
    if raw.Write? {
      var name :| name in curr.files && name !in prev.files && raw.path == "/etc/" + name;
      assert raw.path[5..] == name;
    }
  }

  /** The one report about an item that appears is the expected one. */
  lemma AllExpected(prev: Snapshot, curr: Snapshot, raw: Raw)
    requires Expected(raw, prev, curr)
    ensures raw in Diff(prev, curr)
  {
    ExpectedAppears(prev, curr, raw);
    DiffCounts(prev, curr, ItemOf(raw));
    var i := KeptIsThere(About(ItemOf(raw)), Diff(prev, curr));
    OnlyExpected(prev, curr, Diff(prev, curr)[i]);
    SameReport(prev, curr, raw, Diff(prev, curr)[i]);
  }

  // --- Cycles --------------------------------------------------------------------------------

  /** Text that is not JSON is recovered from; bytes that are not text stop the cycle before it
      saves, and JSON that is no object stops it after. */
  datatype StateFile = Missing | NotJson | NotText | NotAnObject | Saved(snapshot: Snapshot)

  /** Whether the snapshot is written; a refused write leaves the file as it was. */
  datatype Save = Written | Refused | Torn

  /** One cycle: what was done to the file since the last one (never a forged snapshot), what is
      captured, and how the save goes. */
  datatype Cycle = Cycle(damage: Option<StateFile>, curr: Snapshot, save: Save)

  predicate Honest(c: Cycle) {
    c.damage.Some? ==> !c.damage.value.Saved?
  }

  function FileAfter(file: StateFile, curr: Snapshot, save: Save): StateFile {
    if file.NotText? then file
    else match save
      case Written => Saved(curr)
      case Refused => file
      case Torn => NotJson
  }

  function Reported(file: StateFile, curr: Snapshot, save: Save): seq<Raw> {
    if file.Saved? && save.Written? then Diff(file.snapshot, curr) else []
  }

  class Poller {
    var file: StateFile
    var printed: seq<Raw>

    constructor ()
      ensures file == Missing && printed == []
    {
      file, printed := Missing, [];
    }

    /** main, after the environment did `c.damage`. */
    method RunCycle(c: Cycle)
      modifies this
      ensures var found := if c.damage.Some? then c.damage.value else old(file);
        file == FileAfter(found, c.curr, c.save) && printed == old(printed) + Reported(found, c.curr, c.save)
    {
      if c.damage.Some? {
        file := c.damage.value;
      }
      if file.NotText? {
        return;
      }
      var prev, wasValid := Snapshot(map[], map[], {}), false;
      if file.Saved? || file.NotAnObject? {
        prev, wasValid := if file.Saved? then file.snapshot else prev, true;
      }
      var readable := !file.NotAnObject?;
      match c.save {
        case Written => file := Saved(c.curr);
        case Refused => return;
        case Torn => file := NotJson; return;
      }
      if !wasValid || !readable {
        return;
      }
      var events := DiffSnapshots(prev, c.curr);
      printed := printed + events;
    }

    method RunAll(cycles: seq<Cycle>)
      requires file == Missing && printed == [] && forall i :: 0 <= i < |cycles| ==> Honest(cycles[i])
      modifies this
      ensures printed == Printed(cycles) && file == FileBefore(cycles)
      ensures forall item :: |Filter(About(item), printed)| == Transitions(cycles, item)
    {
      for i := 0 to |cycles|
        invariant printed == Printed(cycles[..i]) && file == FileBefore(cycles[..i])
      {
        assert cycles[..i + 1][..i] == cycles[..i];
        RunCycle(cycles[i]);
      }
      assert cycles[..|cycles|] == cycles;
      forall item ensures |Filter(About(item), printed)| == Transitions(cycles, item) {
        ReportsAreTransitions(cycles, item);
      }
    }
  }

  /** The file after the given cycles, and everything they printed. */
  function FileBefore(cycles: seq<Cycle>): StateFile
    decreases |cycles|, 0
  {
    if cycles == [] then Missing
    else
      var c := cycles[|cycles| - 1];
      FileAfter(Found(cycles[..|cycles| - 1], c), c.curr, c.save)
  }

  function Found(cycles: seq<Cycle>, c: Cycle): StateFile
    decreases |cycles|, 1
  {
    if c.damage.Some? then c.damage.value else FileBefore(cycles)
  }

  function Printed(cycles: seq<Cycle>): seq<Raw> {
    if cycles == [] then []
    else
      var before, c := cycles[..|cycles| - 1], cycles[|cycles| - 1];
      Printed(before) + Reported(Found(before, c), c.curr, c.save)
  }

  /** The snapshot the last saving cycle captured, if no damage has come since. */
  function Previous(cycles: seq<Cycle>): Option<Snapshot> {
    if cycles == [] then None
    else
      var c := cycles[|cycles| - 1];
      if c.save.Written? && !Blocked(cycles) then Some(c.curr)
      else if c.save.Torn? || c.damage.Some? then None
      else Previous(cycles[..|cycles| - 1])
  }

  /** The last cycle met bytes that are not text: nothing has replaced them since they came. */
  predicate Blocked(cycles: seq<Cycle>) {
    cycles != [] &&
    var c := cycles[|cycles| - 1];
    if c.damage.Some? then c.damage.value.NotText? else Blocked(cycles[..|cycles| - 1])
  }

  /** How often `item` appears from one cycle with valid state to the next. */
  function Transitions(cycles: seq<Cycle>, item: Item): nat {
    if cycles == [] then 0
    else
      var before, c := cycles[..|cycles| - 1], cycles[|cycles| - 1];
      Transitions(before, item)
      + if c.damage.None? && c.save.Written? && Previous(before).Some? && Appears(item, Previous(before).value, c.curr) then 1 else 0
  }

  lemma {:induction false} FileHolds(cycles: seq<Cycle>)
    requires forall i :: 0 <= i < |cycles| ==> Honest(cycles[i])
    ensures FileBefore(cycles).NotText? <==> Blocked(cycles)
    ensures Blocked(cycles) ==> Previous(cycles).None?
    ensures Previous(cycles).Some? <==> FileBefore(cycles).Saved?
    ensures FileBefore(cycles).Saved? ==> Previous(cycles) == Some(FileBefore(cycles).snapshot)
  {
    if cycles != [] {
      FileHolds(cycles[..|cycles| - 1]);
    }
  }

  /** Over any run, with the state file missing or damaged before any cycles, the reports about an
      item are exactly its transitions; cycles without valid state report nothing. */
  lemma {:induction false} ReportsAreTransitions(cycles: seq<Cycle>, item: Item)
    requires forall i :: 0 <= i < |cycles| ==> Honest(cycles[i])
    ensures |Filter(About(item), Printed(cycles))| == Transitions(cycles, item)
  {
    if cycles != [] {
      var before, c := cycles[..|cycles| - 1], cycles[|cycles| - 1];
      ReportsAreTransitions(before, item);
      FileHolds(before);
      var file := Found(before, c);
      FilterConcat(About(item), Printed(before), Reported(file, c.curr, c.save));
      if file.Saved? {
        DiffCounts(file.snapshot, c.curr, item);
      }
    }
  }

  /** When every save succeeds, valid state means exactly the cycle before. */
  lemma PreviousIsLastCycle(cycles: seq<Cycle>)
    requires cycles != [] && forall i :: 0 <= i < |cycles| ==> cycles[i].save.Written?
    ensures !Blocked(cycles) ==> Previous(cycles) == Some(cycles[|cycles| - 1].curr)
  {
  }
}
