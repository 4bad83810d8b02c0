/** The hash-chained audit log (verdict-engine/audit_log.py). `digest` stands for SHA-256 of
    the canonical JSON of a record and is arbitrary: nothing assumes it injective. */
module AuditChain {
  import opened Options

  datatype Json =
    | Null | Bool(b: bool) | Num(n: real) | Str(s: string)
    | Arr(items: seq<Json>) | Obj(fields: map<string, Json>)

  type Record = map<string, Json>
  type Hash = string
  type Digest = Record -> Hash

  const GENESIS: Hash := "0000000000000000000000000000000000000000000000000000000000000000"
  const PREV := "prev_log_hash"

  /** The columns of an audit_log row that the verifier reads. */
  datatype Row = Row(data: Record, entryHash: Hash)

  /** The hash a new row after `rows` links to. */
  function TailHash(rows: seq<Row>): Hash {
    if rows == [] then GENESIS else rows[|rows| - 1].entryHash
  }

  predicate LinksTo(data: Record, prev: Hash) {
    PREV in data && data[PREV] == Str(prev)
  }

  /** Row `k` links to its predecessor and carries its own digest. */
  predicate Good(digest: Digest, rows: seq<Row>, k: nat)
    requires k < |rows|
  {
    LinksTo(rows[k].data, TailHash(rows[..k])) && digest(rows[k].data) == rows[k].entryHash
  }

  predicate Intact(digest: Digest, rows: seq<Row>) {
    forall k :: 0 <= k < |rows| ==> Good(digest, rows, k)
  }

  function Entry(verdict: Record, prev: Hash): Record {
    verdict[PREV := Str(prev)]
  }

  function NextRow(digest: Digest, rows: seq<Row>, verdict: Record): Row {
    var entry := Entry(verdict, TailHash(rows));
    Row(entry, digest(entry))
  }

  lemma AppendKeepsIntact(digest: Digest, rows: seq<Row>, verdict: Record)
    requires Intact(digest, rows)
    ensures Intact(digest, rows + [NextRow(digest, rows, verdict)])
  {
    var longer := rows + [NextRow(digest, rows, verdict)];
    forall k | 0 <= k < |longer| ensures Good(digest, longer, k) {
      assert longer[..k] == rows[..k];
      if k < |rows| {
        assert Good(digest, rows, k);
      } else {
        assert rows[..k] == rows;
      }
    }
  }

  /** Every prefix of an intact log is intact: rows cut off at the end go unnoticed. */
  lemma PrefixIsIntact(digest: Digest, rows: seq<Row>, n: nat)
    requires Intact(digest, rows) && n <= |rows|
    ensures Intact(digest, rows[..n])
  {
    forall k | 0 <= k < n ensures Good(digest, rows[..n], k) {
      assert rows[..n][..k] == rows[..k];
      assert Good(digest, rows, k);
    }
  }

  /** The 0-based index of the first offending row. */
  function FirstBad(digest: Digest, rows: seq<Row>): (k: Option<nat>)
    ensures k.None? <==> Intact(digest, rows)
    ensures k.Some? ==> k.value < |rows| && !Good(digest, rows, k.value)
    ensures k.Some? ==> forall j :: 0 <= j < k.value ==> Good(digest, rows, j)
    decreases |rows|
  {
    if rows == [] then None
    else
      var n := |rows| - 1;
      assert forall j :: 0 <= j < n ==> rows[..n][..j] == rows[..j];
      assert forall j :: 0 <= j < n ==> Good(digest, rows[..n], j) == Good(digest, rows, j);
      match FirstBad(digest, rows[..n])
      case Some(k) => Some(k)
      case None => if Good(digest, rows, n) then None else Some(n)
  }

  lemma FirstBadIs(digest: Digest, rows: seq<Row>, k: nat)
    requires k < |rows| && !Good(digest, rows, k)
    requires forall j :: 0 <= j < k ==> Good(digest, rows, j)
    ensures FirstBad(digest, rows) == Some(k)
  {
  }

  // ----- Tamper evidence -----

  /** What two logs with the same last hash show. */
  datatype Evidence =
    | Identical
    | Collision(one: Record, other: Record)
    | GenesisPreimage(record: Record)

  predicate Proves(digest: Digest, a: seq<Row>, b: seq<Row>, e: Evidence) {
    match e
    case Identical => a == b
    case Collision(r, q) => r != q && digest(r) == digest(q)
    case GenesisPreimage(r) => digest(r) == GENESIS
  }

  /** Compares two logs from their ends, down to the first difference. */
  function Extract(a: seq<Row>, b: seq<Row>): Evidence {
    if a == [] && b == [] then Identical
    else if a == [] then GenesisPreimage(b[|b| - 1].data)
    else if b == [] then GenesisPreimage(a[|a| - 1].data)
    else if a[|a| - 1].data != b[|b| - 1].data then Collision(a[|a| - 1].data, b[|b| - 1].data)
    else Extract(a[..|a| - 1], b[..|b| - 1])
  }

  /** Two logs that both verify and end in the same hash, of whatever lengths, are the same
      row for row, or they exhibit a digest collision or a record digesting to the
      genesis value. */
  lemma {:induction false} TamperEvidence(digest: Digest, a: seq<Row>, b: seq<Row>)
    requires Intact(digest, a) && Intact(digest, b) && TailHash(a) == TailHash(b)
    ensures Proves(digest, a, b, Extract(a, b))
    decreases |a|
  {
    if a != [] && b != [] {
      var m, n := |a| - 1, |b| - 1;
      assert Good(digest, a, m) && Good(digest, b, n);
      if a[m].data == b[n].data {
        PrefixIsIntact(digest, a, m);
        PrefixIsIntact(digest, b, n);
        TamperEvidence(digest, a[..m], b[..n]);
        assert a == a[..m] + [a[m]] && b == b[..n] + [b[n]];
      }
    } else if a != [] {
      assert Good(digest, a, |a| - 1);
    } else if b != [] {
      assert Good(digest, b, |b| - 1);
    }
  }

  /** The first offending row of an intact log whose row `k` alone was replaced by `row`. */
  function TamperVerdict(digest: Digest, rows: seq<Row>, k: nat, row: Row): Option<nat>
    requires k < |rows|
  {
    if !LinksTo(row.data, TailHash(rows[..k])) || digest(row.data) != row.entryHash then Some(k)
    else if row.entryHash != rows[k].entryHash && k + 1 < |rows| then Some(k + 1)
    else None
  }

  lemma ReplacedRow(digest: Digest, rows: seq<Row>, k: nat, row: Row, j: nat)
    requires Intact(digest, rows) && k < |rows| && j < |rows|
    ensures j != k && j != k + 1 ==> Good(digest, rows[k := row], j)
    ensures j == k ==>
      (Good(digest, rows[k := row], j) <==> LinksTo(row.data, TailHash(rows[..k])) && digest(row.data) == row.entryHash)
    ensures j == k + 1 ==> (Good(digest, rows[k := row], j) <==> row.entryHash == rows[k].entryHash)
  {
    var changed := rows[k := row];
    assert Good(digest, rows, j);
    if j <= k {
      assert changed[..j] == rows[..j];
    } else {
      assert TailHash(changed[..j]) == changed[j - 1].entryHash;
    }
  }

  lemma TamperedRowsAre(digest: Digest, rows: seq<Row>, k: nat, row: Row)
    requires Intact(digest, rows) && k < |rows|
    ensures FirstBad(digest, rows[k := row]) == TamperVerdict(digest, rows, k, row)
  {
    var changed := rows[k := row];
    forall j: nat | j < |rows| && j != k && j != k + 1 ensures Good(digest, changed, j) {
      ReplacedRow(digest, rows, k, row, j);
    }
    ReplacedRow(digest, rows, k, row, k);
    if k + 1 < |rows| {
      ReplacedRow(digest, rows, k, row, k + 1);
    }
  }

  /** A change confined to row `k` of an intact log is reported at `k`, or at the next row when
      the changed row was rehashed with its link kept. It goes unnoticed only as a rehash
      of the last row, or as a second record with the first one's digest. */
  lemma TamperIsReported(digest: Digest, rows: seq<Row>, k: nat, row: Row)
    requires Intact(digest, rows) && k < |rows| && row != rows[k]
    ensures FirstBad(digest, rows[k := row]) == TamperVerdict(digest, rows, k, row)
    ensures Intact(digest, rows[k := row]) ==>
      || (k == |rows| - 1 && digest(row.data) == row.entryHash)
      || (row.data != rows[k].data && digest(row.data) == digest(rows[k].data))
  {
    TamperedRowsAre(digest, rows, k, row);
    assert Good(digest, rows, k);
  }

  // ----- The log itself -----

  datatype Detail = Detail(intact: bool, entries: nat, brokenAt: Option<nat>)

  class AuditLog {
    const digest: Digest
    var rows: seq<Row>

    constructor (digest: Digest)
      ensures this.digest == digest && rows == [] && Intact(digest, rows)
    {
      this.digest := digest;
      rows := [];
    }

    /** append, run alone: one new row that links to the last one; an intact log stays intact. */
    method Append(verdict: Record) returns (stored: Record)
      modifies this
      ensures |rows| == |old(rows)| + 1 && rows[..|old(rows)|] == old(rows)
      ensures Intact(digest, old(rows)) ==> Intact(digest, rows)
      ensures rows[|old(rows)|].data == verdict["prev_log_hash" := Str(TailHash(old(rows)))]
      ensures old(rows) == [] ==>
        rows[0].data["prev_log_hash"] == Str("0000000000000000000000000000000000000000000000000000000000000000")
      ensures rows[|old(rows)|].entryHash == digest(rows[|old(rows)|].data)
      ensures stored == rows[|old(rows)|].data["entry_hash" := Str(rows[|old(rows)|].entryHash)]
    {
      var prevHash := GENESIS;
      if |rows| > 0 {
        prevHash := rows[|rows| - 1].entryHash;
      }
      var entry := verdict[PREV := Str(prevHash)];
      var entryHash := digest(entry);
      if Intact(digest, rows) {
        AppendKeepsIntact(digest, rows, verdict);
      }
      rows := rows + [Row(entry, entryHash)];
      stored := entry["entry_hash" := Str(entryHash)];
    }

    /** verify_chain_detail: intact exactly when every row links and rehashes, else the least
        offending row, counted from 1. */
    method VerifyChainDetail() returns (detail: Detail)
      ensures detail.entries == |rows| && (detail.intact <==> Intact(digest, rows))
      ensures detail.intact ==> detail.brokenAt.None?
      ensures !detail.intact ==> detail.brokenAt.Some? && FirstBad(digest, rows) == Some(detail.brokenAt.value - 1)
    {
      var prevHash := GENESIS;
      for i := 0 to |rows|
        invariant prevHash == TailHash(rows[..i])
        invariant forall k :: 0 <= k < i ==> Good(digest, rows, k)
      {
        var data := rows[i].data;
        if !Good(digest, rows, i) {
          FirstBadIs(digest, rows, i);
        }
        if !(PREV in data && data[PREV] == Str(prevHash)) {
          return Detail(false, |rows|, Some(i + 1));
        }
        var expected := digest(data);
        if expected != rows[i].entryHash {
          return Detail(false, |rows|, Some(i + 1));
        }
        prevHash := rows[i].entryHash;
      }
      return Detail(true, |rows|, None);
    }
  }
}

/** Concurrent appends: each transaction takes the advisory lock, reads the last row by id,
    inserts, and commits or rolls back; ids come from a sequence that rollbacks do not
    rewind, and other transactions see committed rows only. */
module AuditAppends {
  import opened Options
  import opened AuditChain

  type Tid = nat
  type RowId = nat

  datatype Tx =
    | Begun(record: Record)
    | Locked(record: Record)
    | HasTail(record: Record, prev: Hash)
    | Inserted(record: Record, id: RowId, row: Row)
    | Committed(record: Record)
    | RolledBack(record: Record)

  /** A committed row; `writer` is history. */
  datatype Stored = Stored(row: Row, writer: Tid)

  datatype State = State(table: map<RowId, Stored>, nextId: RowId, holder: Option<Tid>, txs: map<Tid, Tx>) {
    function At(t: Tid, tx: Tx): State {
      this.(txs := txs[t := tx])
    }
  }

  datatype Action =
    | Begin(t: Tid, record: Record) | Lock(t: Tid) | ReadTail(t: Tid) | Insert(t: Tid) | Commit(t: Tid) | Rollback(t: Tid)

  ghost predicate IsMax(ids: set<RowId>, m: RowId) {
    m in ids && forall i :: i in ids ==> i <= m
  }

  ghost function MaxId(ids: set<RowId>): (m: RowId)
    requires ids != {}
    ensures IsMax(ids, m)
  {
    HasMax(ids);
    var m :| IsMax(ids, m);
    m
  }

  lemma {:induction false} HasMax(ids: set<RowId>)
    requires ids != {}
    ensures exists m :: IsMax(ids, m)
    decreases |ids|
  {
    var x: RowId :| x in ids;
    if ids == {x} {
      assert IsMax(ids, x);
    } else {
      HasMax(ids - {x});
      var y: RowId :| IsMax(ids - {x}, y);
      var m := if x < y then y else x;
      forall i | i in ids ensures i <= m {
        assert i == x || i in ids - {x};
      }
      assert IsMax(ids, m);
    }
  }

  /** SELECT ... ORDER BY id. */
  ghost function ReadAll(table: map<RowId, Stored>): seq<Row>
    decreases |table|
  {
    if table == map[] then []
    else
      var m := MaxId(table.Keys);
      assert |(table - {m}).Keys| < |table.Keys|;
      ReadAll(table - {m}) + [table[m].row]
  }

  /** SELECT entry_hash ... ORDER BY id DESC LIMIT 1, or the genesis value. */
  ghost function LastHash(table: map<RowId, Stored>): Hash {
    if table == map[] then GENESIS else table[MaxId(table.Keys)].row.entryHash
  }

  predicate HoldsLock(tx: Tx) {
    tx.Locked? || tx.HasTail? || tx.Inserted?
  }

  predicate Enabled(s: State, a: Action) {
    if a.Begin? then a.t !in s.txs
    else
      a.t in s.txs &&
      match a
      case Lock(t) => s.txs[t].Begun? && s.holder.None?
      case ReadTail(t) => s.txs[t].Locked?
      case Insert(t) => s.txs[t].HasTail?
      case Commit(t) => s.txs[t].Inserted?
      case Rollback(t) => s.txs[t].Begun? || HoldsLock(s.txs[t])
  }

  ghost function Apply(digest: Digest, s: State, a: Action): State
    requires Enabled(s, a)
  {
    match a
    case Begin(t, record) => s.At(t, Begun(record))
    case Lock(t) => s.At(t, Locked(s.txs[t].record)).(holder := Some(t))
    case ReadTail(t) => s.At(t, HasTail(s.txs[t].record, LastHash(s.table)))
    case Insert(t) =>
      var entry := Entry(s.txs[t].record, s.txs[t].prev);
      s.At(t, Inserted(s.txs[t].record, s.nextId, Row(entry, digest(entry)))).(nextId := s.nextId + 1)
    case Commit(t) =>
      s.At(t, Committed(s.txs[t].record)).(holder := None, table := s.table[s.txs[t].id := Stored(s.txs[t].row, t)])
    case Rollback(t) =>
      s.At(t, RolledBack(s.txs[t].record)).(holder := if HoldsLock(s.txs[t]) then None else s.holder)
  }

  lemma TailIsLast(table: map<RowId, Stored>)
    ensures LastHash(table) == TailHash(ReadAll(table))
  {
  }

  /** A row with a new largest id is read last. */
  lemma ReadsLast(table: map<RowId, Stored>, id: RowId, stored: Stored)
    requires forall i :: i in table ==> i < id
    ensures ReadAll(table[id := stored]) == ReadAll(table) + [stored.row]
  {
    var longer := table[id := stored];
    assert id in longer;
    assert MaxId(longer.Keys) == id;
    assert longer - {id} == table;
  }

  /** Every committed transaction has exactly one row, and it carries its record. */
  ghost predicate OnceEach(s: State) {
    && (forall i :: i in s.table ==>
      && s.table[i].writer in s.txs && s.txs[s.table[i].writer].Committed?
      && s.table[i].row.data - {PREV} == s.txs[s.table[i].writer].record - {PREV})
    && (forall i, j :: i in s.table && j in s.table && s.table[i].writer == s.table[j].writer ==> i == j)
    && (forall t :: t in s.txs && s.txs[t].Committed? ==> exists i :: i in s.table && s.table[i].writer == t)
  }

  ghost predicate TxGood(digest: Digest, s: State, t: Tid)
    requires t in s.txs
  {
    && (HoldsLock(s.txs[t]) <==> s.holder == Some(t))
    && match s.txs[t]
      case HasTail(_, prev) => prev == TailHash(ReadAll(s.table))
      case Inserted(record, id, row) =>
        id < s.nextId && (forall i :: i in s.table ==> i < id) && row == NextRow(digest, ReadAll(s.table), record)
      case _ => true
  }

  ghost predicate Inv(digest: Digest, s: State) {
    && Intact(digest, ReadAll(s.table)) && OnceEach(s)
    && (forall i :: i in s.table ==> i < s.nextId)
    && (forall t :: t in s.txs ==> TxGood(digest, s, t))
    && (s.holder.Some? ==> s.holder.value in s.txs)
  }

  lemma CommitAppends(digest: Digest, s: State, t: Tid)
    requires Inv(digest, s) && Enabled(s, Commit(t))
    ensures var rows, rows' := ReadAll(s.table), ReadAll(Apply(digest, s, Commit(t)).table);
      rows' == rows + [NextRow(digest, rows, s.txs[t].record)] && Intact(digest, rows')
  {
    assert TxGood(digest, s, t);
    ReadsLast(s.table, s.txs[t].id, Stored(s.txs[t].row, t));
    AppendKeepsIntact(digest, ReadAll(s.table), s.txs[t].record);
  }

  lemma CommitsOnce(digest: Digest, s: State, t: Tid)
    requires OnceEach(s) && Enabled(s, Commit(t)) && s.txs[t].id !in s.table
    requires s.txs[t].row.data - {PREV} == s.txs[t].record - {PREV}
    ensures OnceEach(Apply(digest, s, Commit(t)))
  {
    var s', id := Apply(digest, s, Commit(t)), s.txs[t].id;
    forall u | u in s'.txs && s'.txs[u].Committed? ensures exists i :: i in s'.table && s'.table[i].writer == u {
      if u == t {
        assert id in s'.table;
      } else {
        var i :| i in s.table && s.table[i].writer == u;
        assert i in s'.table && s'.table[i].writer == u;
      }
    }
  }

  lemma OthersAfterCommit(digest: Digest, s: State, t: Tid, u: Tid)
    requires Enabled(s, Commit(t)) && TxGood(digest, s, t) && u in s.txs && TxGood(digest, s, u)
    ensures TxGood(digest, Apply(digest, s, Commit(t)), u)
  {
  }

  lemma CommitFrees(digest: Digest, s: State, t: Tid)
    requires Inv(digest, s) && Enabled(s, Commit(t))
    ensures var s' := Apply(digest, s, Commit(t));
      && (forall i :: i in s'.table ==> i < s'.nextId) && s'.holder.None?
      && s.txs[t].id !in s.table && s.txs[t].row.data - {PREV} == s.txs[t].record - {PREV}
  {
    assert TxGood(digest, s, t);
  }

  lemma CommitKeeps(digest: Digest, s: State, t: Tid)
    requires Inv(digest, s) && Enabled(s, Commit(t))
    ensures Inv(digest, Apply(digest, s, Commit(t)))
  {
    var s' := Apply(digest, s, Commit(t));
    CommitAppends(digest, s, t);
    CommitFrees(digest, s, t);
    CommitsOnce(digest, s, t);
    assert TxGood(digest, s, t);
    forall u | u in s'.txs ensures TxGood(digest, s', u) {
      assert TxGood(digest, s, u);
      OthersAfterCommit(digest, s, t, u);
    }
  }

  lemma OthersKeep(digest: Digest, s: State, a: Action, u: Tid)
    requires Enabled(s, a) && !a.Commit? && u in s.txs && u != a.t && TxGood(digest, s, u)
    requires a.t in s.txs ==> TxGood(digest, s, a.t)
    ensures TxGood(digest, Apply(digest, s, a), u)
  {
  }

  lemma ActorKeeps(digest: Digest, s: State, a: Action)
    requires Enabled(s, a) && !a.Commit? && (a.t in s.txs ==> TxGood(digest, s, a.t))
    requires a.t !in s.txs ==> s.holder != Some(a.t)
    requires forall i :: i in s.table ==> i < s.nextId
    ensures TxGood(digest, Apply(digest, s, a), a.t)
  {
    TailIsLast(s.table);
  }

  lemma StillOnce(digest: Digest, s: State, a: Action)
    requires OnceEach(s) && Enabled(s, a) && !a.Commit?
    ensures Apply(digest, s, a).table == s.table && OnceEach(Apply(digest, s, a))
  {
  }

  lemma InvStep(digest: Digest, s: State, a: Action)
    requires Inv(digest, s) && Enabled(s, a)
    ensures Inv(digest, Apply(digest, s, a))
  {
    var s' := Apply(digest, s, a);
    if a.Commit? {
      CommitKeeps(digest, s, a.t);
    } else {
      StillOnce(digest, s, a);
      ActorKeeps(digest, s, a);
      forall u | u in s'.txs && u != a.t ensures TxGood(digest, s', u) {
        OthersKeep(digest, s, a, u);
      }
    }
  }

  ghost predicate Run(digest: Digest, ss: seq<State>, acts: seq<Action>) {
    && |ss| == |acts| + 1 && ss[0] == State(map[], 1, None, map[])
    && forall i :: 0 <= i < |acts| ==> Enabled(ss[i], acts[i]) && ss[i + 1] == Apply(digest, ss[i], acts[i])
  }

  lemma {:induction false} RunInv(digest: Digest, ss: seq<State>, acts: seq<Action>, i: nat)
    requires Run(digest, ss, acts) && i < |ss|
    ensures Inv(digest, ss[i])
  {
    if i > 0 {
      RunInv(digest, ss, acts, i - 1);
      InvStep(digest, ss[i - 1], acts[i - 1]);
    }
  }

  /** However appends overlap and roll back, the committed log verifies at every moment and
      holds each committed record exactly once and nothing else. */
  lemma AppendsAreLinear(digest: Digest, ss: seq<State>, acts: seq<Action>, i: nat)
    requires Run(digest, ss, acts) && i < |ss|
    ensures Intact(digest, ReadAll(ss[i].table)) && OnceEach(ss[i])
  {
    RunInv(digest, ss, acts, i);
  }

  /** The log grows by one row per commit, in commit order, and never otherwise. */
  lemma LogGrowsByCommits(digest: Digest, ss: seq<State>, acts: seq<Action>, i: nat)
    requires Run(digest, ss, acts) && i < |acts|
    ensures ReadAll(ss[i + 1].table) == ReadAll(ss[i].table) +
      if acts[i].Commit? then [NextRow(digest, ReadAll(ss[i].table), ss[i].txs[acts[i].t].record)] else []
  {
    RunInv(digest, ss, acts, i);
    if acts[i].Commit? {
      CommitAppends(digest, ss[i], acts[i].t);
    }
  }
}
