/** The four regular expressions of sensor/src/parser.rs as sequences of literals and greedy
    character runs, matched at the start of a line. */
module LinePatterns {
  import opened Options

  datatype CharClass = Digit | Space | NotQuote | NotComma | Flag
  datatype Token = Lit(text: string) | Run(class_: CharClass, min: nat)
  type Pattern = seq<Token>

  /** Unicode White_Space. */
  predicate IsSpace(c: char) {
    var n := c as int;
    9 <= n <= 13 || n in {0x20, 0x85, 0xA0, 0x1680, 0x2028, 0x2029, 0x202F, 0x205F, 0x3000} || 0x2000 <= n <= 0x200A
  }

  predicate In(c: char, k: CharClass) {
    match k
    case Digit => '0' <= c <= '9'
    case Space => IsSpace(c)
    case NotQuote => c != '"'
    case NotComma => c != ','
    case Flag => 'A' <= c <= 'Z' || c == '_' || c == '|'
  }

  predicate AllIn(s: string, k: CharClass) {
    forall i :: 0 <= i < |s| ==> In(s[i], k)
  }

  function RunLength(k: CharClass, s: string): (n: nat)
    ensures n <= |s| && AllIn(s[..n], k) && (n < |s| ==> !In(s[n], k))
  {
    if s == "" || !In(s[0], k) then 0 else 1 + RunLength(k, s[1..])
  }

  /** The pieces matched by the tokens, when `s` starts with a match. */
  function Scan(p: Pattern, s: string): (pieces: Option<seq<string>>)
    ensures pieces.Some? ==> |pieces.value| == |p|
  {
    if p == [] then Some([])
    else
      var n := match p[0]
        case Lit(text) => (if text <= s then Some(|text|) else None)
        case Run(k, min) => (var n: nat := RunLength(k, s); if n >= min then Some(n) else None);
      match n
      case None => None
      case Some(n) =>
        match Scan(p[1..], s[n..])
        case None => None
        case Some(rest) => Some([s[..n]] + rest)
  }

  predicate Fits(t: Token, piece: string) {
    match t
    case Lit(text) => piece == text
    case Run(k, min) => |piece| >= min && AllIn(piece, k)
  }

  function Join(pieces: seq<string>): string {
    if pieces == [] then "" else pieces[0] + Join(pieces[1..])
  }

  /** What it means for the pieces to match: they fit the tokens, `s` starts with them, and a
      run at the end of the pattern is taken as long as possible. */
  predicate Matches(p: Pattern, pieces: seq<string>, s: string) {
    && |pieces| == |p| && (forall i :: 0 <= i < |p| ==> Fits(p[i], pieces[i]))
    && Join(pieces) <= s
    && (p != [] && p[|p| - 1].Run? && |Join(pieces)| < |s| ==> !In(s[|Join(pieces)|], p[|p| - 1].class_))
  }

  /** Whether a character of the class could also begin the token. */
  predicate Starts(t: Token, c: char) {
    match t
    case Lit(text) => text == "" || text[0] == c
    case Run(k, min) => min == 0 || In(c, k)
  }

  ghost predicate Apart(k: CharClass, t: Token) {
    forall c :: In(c, k) ==> !Starts(t, c)
  }

  /** No run can borrow from the token after it, so a greedy scan never needs to back up. */
  ghost predicate Separated(p: Pattern) {
    forall i :: 0 <= i < |p| - 1 && p[i].Run? ==> Apart(p[i].class_, p[i + 1])
  }

  lemma {:induction false} RunIs(k: CharClass, s: string, n: nat)
    requires n <= |s| && AllIn(s[..n], k) && (n < |s| ==> !In(s[n], k))
    ensures RunLength(k, s) == n
  {
    if n > 0 {
      assert s[..n][0] == s[0];
      assert s[..n][1..] == s[1..][..n - 1];
      RunIs(k, s[1..], n - 1);
    }
  }

  lemma FittingStarts(t: Token, piece: string, s: string)
    requires Fits(t, piece) && piece <= s && s != ""
    ensures Starts(t, s[0])
  {
    if piece != "" {
      assert piece[0] == s[0];
    }
  }

  lemma FirstPiece(p: Pattern, pieces: seq<string>, s: string)
    requires p != [] && Separated(p) && Matches(p, pieces, s) && p[0].Run?
    ensures |pieces[0]| == RunLength(p[0].class_, s)
  {
    var n := |pieces[0]|;
    assert Join(pieces) == pieces[0] + Join(pieces[1..]);
    assert pieces[0] == s[..n];
    if |p| > 1 && n < |s| {
      assert Join(pieces[1..]) == pieces[1] + Join(pieces[1..][1..]);
      assert Join(pieces) <= s;
      assert Join(pieces[1..]) == s[n..][..|Join(pieces[1..])|];
      assert Fits(p[1], pieces[1]);
      FittingStarts(p[1], pieces[1], s[n..]);
      assert Apart(p[0].class_, p[1]);
    }
    RunIs(p[0].class_, s, n);
  }

  lemma RestMatches(p: Pattern, pieces: seq<string>, s: string, n: nat)
    requires p != [] && |pieces| == |p| && n <= |s| && pieces[0] == s[..n] && Fits(p[0], pieces[0])
    requires |p| == 1 && p[0].Run? && n < |s| ==> !In(s[n], p[0].class_)
    ensures Matches(p, pieces, s) <==> Matches(p[1..], pieces[1..], s[n..])
  {
    assert Join(pieces) == s[..n] + Join(pieces[1..]);
    if Matches(p, pieces, s) {
      assert Join(pieces) == s[..|Join(pieces)|];
      assert Join(pieces[1..]) == s[n..][..|Join(pieces[1..])|];
    }
    if Matches(p[1..], pieces[1..], s[n..]) {
      assert s == s[..n] + s[n..];
      forall i | 0 <= i < |p| ensures Fits(p[i], pieces[i]) {
        if i > 0 {
          assert p[i] == p[1..][i - 1] && pieces[i] == pieces[1..][i - 1];
        }
      }
    }
  }

  /** The greedy scan finds a match exactly when there is one, and there is only one. */
  lemma {:induction false} ScanIsTheMatch(p: Pattern, s: string, pieces: seq<string>)
    requires Separated(p)
    ensures Scan(p, s) == Some(pieces) <==> Matches(p, pieces, s)
    decreases |p|
  {
    if p == [] {
    } else {
      assert Separated(p[1..]) by {
        forall i | 0 <= i < |p[1..]| - 1 && p[1..][i].Run? ensures Apart(p[1..][i].class_, p[1..][i + 1]) {
          assert p[1..][i] == p[i + 1] && p[1..][i + 1] == p[i + 2];
        }
      }
      if Matches(p, pieces, s) {
        MatchIsFound(p, s, pieces);
      }
      if Scan(p, s) == Some(pieces) {
        FoundIsMatch(p, s, pieces);
      }
    }
  }

  lemma MatchIsFound(p: Pattern, s: string, pieces: seq<string>)
    requires p != [] && Separated(p) && Separated(p[1..]) && Matches(p, pieces, s)
    ensures Scan(p, s) == Some(pieces)
    decreases |p|, 0
  {
    var n := |pieces[0]|;
    assert Join(pieces) == pieces[0] + Join(pieces[1..]);
    assert pieces[0] == s[..n];
    if p[0].Run? {
      FirstPiece(p, pieces, s);
    }
    RestMatches(p, pieces, s, n);
    ScanIsTheMatch(p[1..], s[n..], pieces[1..]);
    assert pieces == [pieces[0]] + pieces[1..];
  }

  lemma FoundIsMatch(p: Pattern, s: string, pieces: seq<string>)
    requires p != [] && Separated(p[1..]) && Scan(p, s) == Some(pieces)
    ensures Matches(p, pieces, s)
    decreases |p|, 0
  {
    var n := |pieces[0]|;
    assert pieces[0] == s[..n];
    ScanIsTheMatch(p[1..], s[n..], pieces[1..]);
    RestMatches(p, pieces, s, n);
  }
}

/** str::lines, str::split_inclusive('\n') and str::trim. */
module TextLines {
  import opened LinePatterns

  /** The length of the first line of `t`, its newline included. */
  function FirstLine(t: string): (n: nat)
    requires t != ""
    ensures 0 < n <= |t|
    ensures forall i :: 0 <= i < n - 1 ==> t[i] != '\n'
    ensures n < |t| ==> t[n - 1] == '\n'
  {
    if t[0] == '\n' || |t| == 1 then 1 else 1 + FirstLine(t[1..])
  }

  function SplitInclusive(t: string): seq<string> {
    if t == "" then [] else [t[..FirstLine(t)]] + SplitInclusive(t[FirstLine(t)..])
  }

  predicate EndsLine(s: string) {
    s != "" && s[|s| - 1] == '\n'
  }

  /** A piece: newline only at its end. */
  predicate IsLine(s: string) {
    s != "" && forall i :: 0 <= i < |s| - 1 ==> s[i] != '\n'
  }

  /** What split_inclusive yields: only the last piece may lack its newline. */
  predicate ArePieces(ps: seq<string>) {
    forall i :: 0 <= i < |ps| ==> IsLine(ps[i]) && (i < |ps| - 1 ==> EndsLine(ps[i]))
  }

  lemma {:induction false} FirstLineIs(s: string, rest: string)
    requires IsLine(s) && (rest == "" || EndsLine(s))
    ensures FirstLine(s + rest) == |s|
  {
    if |s| > 1 {
      assert (s + rest)[0] == s[0] != '\n';
      assert (s + rest)[1..] == s[1..] + rest;
      FirstLineIs(s[1..], rest);
    } else if rest == "" {
      assert s + rest == s;
    }
  }

  /** Splitting undoes joining. */
  lemma {:induction false} SplitJoin(ps: seq<string>)
    requires ArePieces(ps)
    ensures SplitInclusive(Join(ps)) == ps
    decreases |ps|
  {
    if ps != [] {
      var rest := Join(ps[1..]);
      FirstLineIs(ps[0], rest);
      assert (ps[0] + rest)[..|ps[0]|] == ps[0] && (ps[0] + rest)[|ps[0]|..] == rest;
      SplitJoin(ps[1..]);
    }
  }

  /** Joining undoes splitting. */
  lemma {:induction false} JoinSplit(t: string)
    ensures Join(SplitInclusive(t)) == t && ArePieces(SplitInclusive(t))
  {
    if t != "" {
      var n := FirstLine(t);
      assert t == t[..n] + t[n..];
      JoinSplit(t[n..]);
      assert SplitInclusive(t)[1..] == SplitInclusive(t[n..]);
      var ps := SplitInclusive(t);
      forall i | 0 <= i < |ps| ensures IsLine(ps[i]) && (i < |ps| - 1 ==> EndsLine(ps[i])) {
        if i > 0 {
          assert ps[i] == SplitInclusive(t[n..])[i - 1];
        }
      }
    }
  }

  lemma {:induction false} JoinConcat(a: seq<string>, b: seq<string>)
    ensures Join(a + b) == Join(a) + Join(b)
  {
    if a == [] {
      assert a + b == b;
    } else {
      JoinConcat(a[1..], b);
      assert (a + b)[1..] == a[1..] + b && (a + b)[0] == a[0];
      assert a[0] + (Join(a[1..]) + Join(b)) == a[0] + Join(a[1..]) + Join(b);
    }
  }

  lemma {:induction false} LastPieceEnds(t: string)
    requires EndsLine(t)
    ensures SplitInclusive(t) != [] && EndsLine(SplitInclusive(t)[|SplitInclusive(t)| - 1])
  {
    var n := FirstLine(t);
    if n < |t| {
      LastPieceEnds(t[n..]);
    }
  }

  /** Splitting is a homomorphism over newline-terminated texts. */
  lemma SplitConcat(a: string, b: string)
    requires a == "" || EndsLine(a)
    ensures SplitInclusive(a + b) == SplitInclusive(a) + SplitInclusive(b)
  {
    var p, q := SplitInclusive(a), SplitInclusive(b);
    JoinSplit(a);
    JoinSplit(b);
    JoinConcat(p, q);
    if a != "" {
      LastPieceEnds(a);
    }
    assert ArePieces(p + q);
    SplitJoin(p + q);
  }

  function TrimEnd(s: string): (r: string)
    ensures r <= s && (r != "" ==> !IsSpace(r[|r| - 1]))
  {
    if s != "" && IsSpace(s[|s| - 1]) then TrimEnd(s[..|s| - 1]) else s
  }

  function TrimStart(s: string): string {
    if s != "" && IsSpace(s[0]) then TrimStart(s[1..]) else s
  }

  function Trim(s: string): string {
    TrimStart(TrimEnd(s))
  }

  /** The line ending that lines() takes off. */
  function StripEol(piece: string): string {
    if !EndsLine(piece) then piece
    else
      var s := piece[..|piece| - 1];
      if s != "" && s[|s| - 1] == '\r' then s[..|s| - 1] else s
  }

  lemma TrimStripEol(piece: string)
    ensures Trim(StripEol(piece)) == Trim(piece)
  {
    if EndsLine(piece) {
      var s := piece[..|piece| - 1];
      assert TrimEnd(piece) == TrimEnd(s);
      if s != "" && s[|s| - 1] == '\r' {
        assert TrimEnd(s) == TrimEnd(s[..|s| - 1]);
      }
    }
  }

  lemma {:induction false} TrimEndOf(a: string, b: string)
    requires a != "" && !IsSpace(a[|a| - 1])
    ensures TrimEnd(a + b) == a + TrimEnd(b)
    decreases |b|
  {
    if b == "" {
      assert a + b == a;
    } else {
      var last := |b| - 1;
      assert (a + b)[..|a| + last] == a + b[..last];
      if IsSpace(b[last]) {
        TrimEndOf(a, b[..last]);
      }
    }
  }

  lemma {:induction false} TrimStartOf(indent: string, s: string)
    requires AllIn(indent, Space) && s != "" && !IsSpace(s[0])
    ensures TrimStart(indent + s) == s
  {
    if indent == "" {
      assert indent + s == s;
    } else {
      assert (indent + s)[1..] == indent[1..] + s;
      TrimStartOf(indent[1..], s);
    }
  }

  lemma TrimEndAround(indent: string, core: string, rest: string)
    requires core != "" && !IsSpace(core[|core| - 1])
    ensures TrimEnd(indent + core + rest) == indent + (core + TrimEnd(rest))
  {
    var front := indent + core;
    assert front[|front| - 1] == core[|core| - 1];
    TrimEndOf(front, rest);
    assert front + TrimEnd(rest) == indent + (core + TrimEnd(rest));
  }

  /** Trimming a line whose core starts and ends with visible characters. */
  lemma TrimAround(indent: string, core: string, rest: string)
    requires AllIn(indent, Space) && core != "" && !IsSpace(core[0]) && !IsSpace(core[|core| - 1])
    ensures Trim(indent + core + rest) == core + TrimEnd(rest)
  {
    TrimEndAround(indent, core, rest);
    var back := core + TrimEnd(rest);
    assert back[0] == core[0];
    TrimStartOf(indent, back);
  }
}

/** parse_trace_log of sensor/src/parser.rs and strip_root_execve of sensor/src/tracer.rs. */
module TraceParser {
  import opened Options
  import Numerals
  import opened Sequences
  import opened Events
  import opened LinePatterns
  import opened TextLines

  const WRITE_FLAGS := ["O_WRONLY", "O_RDWR", "O_CREAT"]
  const EXECVE: Pattern := [Run(Digit, 1), Run(Space, 1), Lit("execve(\""), Run(NotQuote, 1), Lit("\"")]
  const OPENAT: Pattern := [
    Run(Digit, 1), Run(Space, 1), Lit("openat("), Run(NotComma, 1), Lit(","), Run(Space, 0), Lit("\""),
    Run(NotQuote, 1), Lit("\","), Run(Space, 0), Run(Flag, 1)]
  // Statically linked programs call the older open instead.
  const OPEN: Pattern := [
    Run(Digit, 1), Run(Space, 1), Lit("open(\""), Run(NotQuote, 1), Lit("\","), Run(Space, 0), Run(Flag, 1)]
  const CONNECT: Pattern := [
    Run(Digit, 1), Run(Space, 1), Lit("connect("), Run(Digit, 1), Lit(","), Run(Space, 0), Lit("{sa_family=AF_INET,"),
    Run(Space, 0), Lit("sin_port=htons("), Run(Digit, 1), Lit("),"), Run(Space, 0), Lit("sin_addr=inet_addr(\""),
    Run(NotQuote, 1), Lit("\")")]
  const ROOT_EXECVE: Pattern := [Run(Digit, 1), Run(Space, 1), Lit("execve(")]
  const U32_MAX := 0xFFFF_FFFF
  const U16_MAX := 0xFFFF

  /** Classes without a common character. */
  predicate Disjoint(a: CharClass, b: CharClass) {
    (a == Digit && b == Space) || (a == Space && b == Flag)
  }

  predicate IsApart(k: CharClass, t: Token) {
    match t
    case Lit(text) => text != "" && !In(text[0], k)
    case Run(other, min) => min > 0 && Disjoint(k, other)
  }

  lemma SeparatedIf(p: Pattern)
    requires forall i :: 0 <= i < |p| - 1 && p[i].Run? ==> IsApart(p[i].class_, p[i + 1])
    ensures Separated(p)
  {
    forall i | 0 <= i < |p| - 1 && p[i].Run? ensures Apart(p[i].class_, p[i + 1]) {
      assert IsApart(p[i].class_, p[i + 1]);
    }
  }

  /** Greedy scanning is exact for the five patterns. */
  lemma PatternsAreSeparated()
    ensures Separated(EXECVE) && Separated(OPENAT) && Separated(OPEN) && Separated(CONNECT) && Separated(ROOT_EXECVE)
  {
    SeparatedIf(EXECVE);
    SeparatedIf(OPENAT);
    SeparatedIf(OPEN);
    SeparatedIf(CONNECT);
    SeparatedIf(ROOT_EXECVE);
  }

  function Value(digits: string): nat
    requires AllIn(digits, Digit)
  {
    if digits == "" then 0
    else
      var last := |digits| - 1;
      10 * Value(digits[..last]) + (digits[last] as int - '0' as int)
  }

  /** str::parse::<u32 or u16>().unwrap_or(0) */
  function Parsed(digits: string, max: nat): nat
    requires AllIn(digits, Digit)
  {
    if Value(digits) <= max then Value(digits) else 0
  }

  /** What follows the last '/'. */
  function BaseName(path: string): string {
    if path == "" || path[|path| - 1] == '/' then "" else BaseName(path[..|path| - 1]) + [path[|path| - 1]]
  }

  predicate Contains(s: string, part: string) {
    exists i :: 0 <= i <= |s| && part <= s[i..]
  }

  predicate OpensForWriting(flags: string) {
    exists i :: 0 <= i < |WRITE_FLAGS| && Contains(flags, WRITE_FLAGS[i])
  }

  /** The events of one trimmed line. */
  function LineEvents(line: string): (events: seq<Event>)
    ensures |events| <= 1
  {
    match Scan(EXECVE, line)
    case Some(caps) =>
      PatternsAreSeparated();
      ScanIsTheMatch(EXECVE, line, caps);
      [Spawned(Parsed(caps[0], U32_MAX), BaseName(caps[3]))]
    case None =>
      match Scan(OPENAT, line)
      case Some(caps) => if OpensForWriting(caps[10]) then [Wrote(caps[7])] else []
      case None =>
        match Scan(OPEN, line)
        case Some(caps) => if OpensForWriting(caps[6]) then [Wrote(caps[3])] else []
        case None =>
          match Scan(CONNECT, line)
          case Some(caps) =>
            PatternsAreSeparated();
            ScanIsTheMatch(CONNECT, line, caps);
            [Connected(caps[13], Parsed(caps[9], U16_MAX))]
          case None => []
  }

  /** The events of an untrimmed line. */
  function PieceEvents(piece: string): seq<Event> {
    LineEvents(Trim(piece))
  }

  function EventsOf(pieces: seq<string>): seq<Event> {
    FlatMap(PieceEvents, pieces)
  }

  function Parse(text: string): seq<Event> {
    EventsOf(SplitInclusive(text))
  }

  function Lines(text: string): (lines: seq<string>)
    ensures |lines| == |SplitInclusive(text)|
    ensures forall i :: 0 <= i < |lines| ==> lines[i] == StripEol(SplitInclusive(text)[i])
  {
    var pieces := SplitInclusive(text);
    forall i | 0 <= i < |pieces| ensures Map(StripEol, pieces)[i] == StripEol(pieces[i]) {
      MapAt(StripEol, pieces, i);
    }
    Map(StripEol, pieces)
  }

  /** One pass of the loop of parse_trace_log. */
  method ParseLine(line: string) returns (events: seq<Event>)
    ensures events == LineEvents(line)
  {
    var execve := Scan(EXECVE, line);
    PatternsAreSeparated();
    if execve.Some? {
      var caps := execve.value;
      ScanIsTheMatch(EXECVE, line, caps);
      return [Spawned(Parsed(caps[0], U32_MAX), BaseName(caps[3]))];
    }
    var openat := Scan(OPENAT, line);
    if openat.Some? {
      var caps := openat.value;
      return if OpensForWriting(caps[10]) then [Wrote(caps[7])] else [];
    }
    var open := Scan(OPEN, line);
    if open.Some? {
      var caps := open.value;
      return if OpensForWriting(caps[6]) then [Wrote(caps[3])] else [];
    }
    var connect := Scan(CONNECT, line);
    if connect.Some? {
      var caps := connect.value;
      ScanIsTheMatch(CONNECT, line, caps);
      return [Connected(caps[13], Parsed(caps[9], U16_MAX))];
    }
    return [];
  }

  lemma NextLine(pieces: seq<string>, i: nat)
    requires i < |pieces|
    ensures EventsOf(pieces[..i + 1]) == EventsOf(pieces[..i]) + LineEvents(Trim(StripEol(pieces[i])))
    ensures Trim(StripEol(pieces[i])) == "" ==> EventsOf(pieces[..i + 1]) == EventsOf(pieces[..i])
  {
    assert pieces[..i + 1][..i] == pieces[..i];
    TrimStripEol(pieces[i]);
  }

  method ParseTraceLog(text: string) returns (events: seq<Event>)
    ensures events == Parse(text)
  {
    events := [];
    ghost var pieces := SplitInclusive(text);
    var lines := Lines(text);
    for i := 0 to |lines|
      invariant events == EventsOf(pieces[..i])
    {
      NextLine(pieces, i);
      var line := Trim(lines[i]);
      if line == "" {
        continue;
      }
      var parsed := ParseLine(line);
      events := events + parsed;
    }
    assert pieces[..|lines|] == pieces;
  }

  /** Parsing is a homomorphism over newline-terminated pieces of a log. */
  lemma ParseConcat(a: string, b: string)
    requires a == "" || EndsLine(a)
    ensures Parse(a + b) == Parse(a) + Parse(b)
  {
    SplitConcat(a, b);
    FlatMapConcat(PieceEvents, SplitInclusive(a), SplitInclusive(b));
  }

  predicate IsRoot(piece: string) {
    Scan(ROOT_EXECVE, Trim(piece)).Some?
  }

  /** The pieces without the first one that starts with digits, space, "execve(". */
  function WithoutRoot(pieces: seq<string>): seq<string> {
    if pieces == [] then []
    else if IsRoot(pieces[0]) then pieces[1..]
    else [pieces[0]] + WithoutRoot(pieces[1..])
  }

  /** What strip_root_execve still has to append when it reaches piece `i`. */
  function Left(pieces: seq<string>, i: nat, removed: bool): string
    requires i <= |pieces|
  {
    Join(if removed then pieces[i..] else WithoutRoot(pieces[i..]))
  }

  lemma NextPiece(pieces: seq<string>, i: nat, removed: bool)
    requires i < |pieces|
    ensures Left(pieces, i, removed) ==
      if !removed && IsRoot(pieces[i]) then Left(pieces, i + 1, true) else pieces[i] + Left(pieces, i + 1, removed)
  {
    assert pieces[i..][1..] == pieces[i + 1..];
    if !removed && !IsRoot(pieces[i]) {
      var rest := WithoutRoot(pieces[i + 1..]);
      assert ([pieces[i]] + rest)[1..] == rest;
    }
  }

  lemma NextResult(pieces: seq<string>, i: nat, removed: bool, result: string)
    requires i < |pieces|
    ensures result + Left(pieces, i, removed) ==
      if !removed && IsRoot(pieces[i]) then result + Left(pieces, i + 1, true)
      else (result + pieces[i]) + Left(pieces, i + 1, removed)
  {
    NextPiece(pieces, i, removed);
    Associate(result, pieces[i], Left(pieces, i + 1, removed));
  }

  method StripRootExecve(text: string) returns (result: string)
    ensures result == Join(WithoutRoot(SplitInclusive(text)))
  {
    var removed := false;
    result := "";
    var pieces := SplitInclusive(text);
    ghost var all := Left(pieces, 0, false);
    assert pieces[0..] == pieces;
    for i := 0 to |pieces|
      invariant all == result + Left(pieces, i, removed)
    {
      NextResult(pieces, i, removed, result);
      var line := pieces[i];
      if !removed && IsRoot(line) {
        removed := true;
        continue;
      }
      result := result + line;
    }
    assert Left(pieces, |pieces|, removed) == "";
  }

  lemma {:induction false} WithoutRootIs(pieces: seq<string>, k: nat)
    requires k <= |pieces| && (forall i :: 0 <= i < k ==> !IsRoot(pieces[i])) && (k < |pieces| ==> IsRoot(pieces[k]))
    ensures WithoutRoot(pieces) == pieces[..k] + (if k < |pieces| then pieces[k + 1..] else [])
  {
    if k > 0 {
      WithoutRootIs(pieces[1..], k - 1);
      assert pieces[..k] == [pieces[0]] + pieces[1..][..k - 1];
      if k < |pieces| {
        assert pieces[1..][k..] == pieces[k + 1..];
      }
    }
  }

  lemma PiecesWithout(ps: seq<string>, k: nat)
    requires k < |ps| && ArePieces(ps)
    ensures ArePieces(ps[..k] + ps[k + 1..])
  {
    var left := ps[..k] + ps[k + 1..];
    forall i | 0 <= i < |left| ensures IsLine(left[i]) && (i < |left| - 1 ==> EndsLine(left[i])) {
      assert left[i] == ps[if i < k then i else i + 1];
    }
  }

  /** Stripping takes out exactly the event, if any, of the first root line; `k` is that line. */
  lemma StripDropsOneLine(text: string, k: nat)
    requires var ps := SplitInclusive(text);
      k < |ps| && IsRoot(ps[k]) && forall i :: 0 <= i < k ==> !IsRoot(ps[i])
    ensures var ps := SplitInclusive(text); var a, b := EventsOf(ps[..k]), EventsOf(ps[k + 1..]);
      && Parse(text) == a + PieceEvents(ps[k]) + b
      && Parse(Join(WithoutRoot(ps))) == a + b
  {
    var ps := SplitInclusive(text);
    FlatMapAround(PieceEvents, ps, k);
    FlatMapConcat(PieceEvents, ps[..k], ps[k + 1..]);
    assert SplitInclusive(Join(WithoutRoot(ps))) == ps[..k] + ps[k + 1..] by {
      JoinSplit(text);
      WithoutRootIs(ps, k);
      PiecesWithout(ps, k);
      SplitJoin(ps[..k] + ps[k + 1..]);
    }
  }

  /** Without a root line nothing is stripped. */
  lemma StripKeepsRest(text: string)
    requires forall i :: 0 <= i < |SplitInclusive(text)| ==> !IsRoot(SplitInclusive(text)[i])
    ensures Join(WithoutRoot(SplitInclusive(text))) == text
  {
    var ps := SplitInclusive(text);
    WithoutRootIs(ps, |ps|);
    assert ps[..|ps|] == ps;
    JoinSplit(text);
  }

  /** Two patterns that name different system calls never match the same line. */
  lemma OneCallPerLine(p: Pattern, q: Pattern, line: string)
    requires |p| > 2 && |q| > 2 && p[..2] == q[..2] == ROOT_EXECVE[..2] && p[2].Lit? && q[2].Lit?
    requires !(p[2].text <= q[2].text) && !(q[2].text <= p[2].text)
    ensures Scan(p, line).None? || Scan(q, line).None?
  {
    var d := RunLength(Digit, line);
    var s := RunLength(Space, line[d..]);
    assert p[0] == q[0] == Run(Digit, 1) && p[1] == q[1] == Run(Space, 1) by {
      assert p[..2][0] == p[0] && q[..2][0] == q[0] && p[..2][1] == p[1] && q[..2][1] == q[1];
    }
    ScansLiteral(p, line);
    ScansLiteral(q, line);
    var rest := line[d..][s..];
    if p[2].text <= rest && q[2].text <= rest {
      PrefixesCompare(p[2].text, q[2].text, rest);
    }
  }

  lemma PrefixesCompare(a: string, b: string, s: string)
    requires a <= s && b <= s
    ensures a <= b || b <= a
  {
    assert a == s[..|a|] && b == s[..|b|];
  }

  lemma ScansLiteral(p: Pattern, line: string)
    requires |p| > 2 && p[0] == Run(Digit, 1) && p[1] == Run(Space, 1) && p[2].Lit?
    ensures var d := RunLength(Digit, line);
      Scan(p, line).Some? ==> p[2].text <= line[d..][RunLength(Space, line[d..])..]
  {
    var d := RunLength(Digit, line);
    var s := RunLength(Space, line[d..]);
    assert p[1..][0] == p[1] && p[1..][1..] == p[2..] && p[2..][0] == p[2];
    if Scan(p, line).Some? {
      assert Scan(p[1..], line[d..]).Some?;
      assert Scan(p[2..], line[d..][s..]).Some?;
    }
  }

  lemma CallsAreDistinct(line: string)
    ensures Scan(EXECVE, line).Some? || Scan(ROOT_EXECVE, line).Some? ==>
      Scan(OPENAT, line).None? && Scan(OPEN, line).None? && Scan(CONNECT, line).None?
    ensures Scan(OPENAT, line).Some? ==> Scan(OPEN, line).None? && Scan(CONNECT, line).None?
    ensures Scan(OPEN, line).Some? ==> Scan(CONNECT, line).None?
  {
    assert "execve(\""[0] == 'e' && "execve("[0] == 'e' && "openat("[2] == 'e' && "connect("[0] == 'c';
    OneCallPerLine(EXECVE, OPENAT, line);
    OneCallPerLine(EXECVE, OPEN, line);
    OneCallPerLine(EXECVE, CONNECT, line);
    OneCallPerLine(ROOT_EXECVE, OPENAT, line);
    OneCallPerLine(ROOT_EXECVE, OPEN, line);
    OneCallPerLine(ROOT_EXECVE, CONNECT, line);
    assert "open(\""[4] == '(' && "openat("[4] == 'a';
    OneCallPerLine(OPENAT, OPEN, line);
    OneCallPerLine(OPENAT, CONNECT, line);
    OneCallPerLine(OPEN, CONNECT, line);
  }

  lemma {:induction false} JoinEnds(pieces: seq<string>)
    requires pieces != [] && pieces[0] != "" && pieces[|pieces| - 1] != ""
    ensures var s, last := Join(pieces), pieces[|pieces| - 1];
      s != "" && s[0] == pieces[0][0] && s[|s| - 1] == last[|last| - 1]
  {
    JoinConcat(pieces[..|pieces| - 1], [pieces[|pieces| - 1]]);
    assert pieces == pieces[..|pieces| - 1] + [pieces[|pieces| - 1]];
    assert Join([pieces[|pieces| - 1]]) == pieces[|pieces| - 1];
  }

  /** A system call written out as the pattern says, indented anyhow and followed by anything
      that does not lengthen its last field. */
  ghost predicate WellFormed(p: Pattern, pieces: seq<string>, indent: string, rest: string) {
    && |pieces| == |p| > 0 && (forall i :: 0 <= i < |p| ==> Fits(p[i], pieces[i]))
    && AllIn(indent, Space)
    && (p[|p| - 1].Run? && rest != "" ==> !In(rest[0], p[|p| - 1].class_))
  }

  lemma WellFormedIsScanned(p: Pattern, pieces: seq<string>, indent: string, rest: string)
    requires WellFormed(p, pieces, indent, rest) && Separated(p)
    requires p[0] == Run(Digit, 1) && p[|p| - 1] in [Run(Flag, 1), Lit("\""), Lit("\")")]
    ensures Scan(p, Trim(indent + Join(pieces) + rest)) == Some(pieces)
  {
    var core, last := Join(pieces), |p| - 1;
    assert Fits(p[0], pieces[0]) && Fits(p[last], pieces[last]);
    JoinEnds(pieces);
    TrimAround(indent, core, rest);
    var line := core + TrimEnd(rest);
    assert core <= line;
    assert |core| < |line| ==> line[|core|] == TrimEnd(rest)[0] == rest[0];
    ScanIsTheMatch(p, line, pieces);
  }

  lemma ExecveLine(pieces: seq<string>, indent: string, rest: string)
    requires WellFormed(EXECVE, pieces, indent, rest)
    ensures PieceEvents(indent + Join(pieces) + rest) == [Spawned(Parsed(pieces[0], U32_MAX), BaseName(pieces[3]))]
  {
    PatternsAreSeparated();
    WellFormedIsScanned(EXECVE, pieces, indent, rest);
  }

  lemma OpenatLine(pieces: seq<string>, indent: string, rest: string)
    requires WellFormed(OPENAT, pieces, indent, rest)
    ensures PieceEvents(indent + Join(pieces) + rest) == if OpensForWriting(pieces[10]) then [Wrote(pieces[7])] else []
  {
    PatternsAreSeparated();
    WellFormedIsScanned(OPENAT, pieces, indent, rest);
    CallsAreDistinct(Trim(indent + Join(pieces) + rest));
  }

  lemma OpenLine(pieces: seq<string>, indent: string, rest: string)
    requires WellFormed(OPEN, pieces, indent, rest)
    ensures PieceEvents(indent + Join(pieces) + rest) == if OpensForWriting(pieces[6]) then [Wrote(pieces[3])] else []
  {
    PatternsAreSeparated();
    WellFormedIsScanned(OPEN, pieces, indent, rest);
    CallsAreDistinct(Trim(indent + Join(pieces) + rest));
  }

  lemma ConnectLine(pieces: seq<string>, indent: string, rest: string)
    requires WellFormed(CONNECT, pieces, indent, rest)
    ensures PieceEvents(indent + Join(pieces) + rest) == [Connected(pieces[13], Parsed(pieces[9], U16_MAX))]
  {
    PatternsAreSeparated();
    WellFormedIsScanned(CONNECT, pieces, indent, rest);
    CallsAreDistinct(Trim(indent + Join(pieces) + rest));
  }

  // ----- The patterns in plain terms -----

  predicate AllFit(p: Pattern, pieces: seq<string>) {
    |pieces| == |p| && forall i :: 0 <= i < |p| ==> Fits(p[i], pieces[i])
  }

  predicate IsNumber(s: string) {
    s != "" && forall i :: 0 <= i < |s| ==> '0' <= s[i] <= '9'
  }

  predicate IsBlank(s: string) {
    forall i :: 0 <= i < |s| ==> IsSpace(s[i])
  }

  predicate IsFree(s: string, stop: char) {
    s != "" && forall i :: 0 <= i < |s| ==> s[i] != stop
  }

  predicate IsFlagChar(c: char) {
    'A' <= c <= 'Z' || c == '_' || c == '|'
  }

  predicate IsFlagList(s: string) {
    s != "" && forall i :: 0 <= i < |s| ==> IsFlagChar(s[i])
  }

  predicate IsCall(s: seq<string>, name: string) {
    |s| >= 3 && IsNumber(s[0]) && s[1] != "" && IsBlank(s[1]) && s[2] == name
  }

  /** pid execve("path" */
  predicate IsExecve(s: seq<string>) {
    |s| == 5 && IsCall(s, "execve(\"") && IsFree(s[3], '"') && s[4] == "\""
  }

  /** pid openat(dir, "path", FLAGS */
  predicate IsOpenat(s: seq<string>) {
    && |s| == 11 && IsCall(s, "openat(") && IsFree(s[3], ',') && s[4] == "," && IsBlank(s[5]) && s[6] == "\""
    && IsFree(s[7], '"') && s[8] == "\"," && IsBlank(s[9]) && IsFlagList(s[10])
  }

  /** pid open("path", FLAGS */
  predicate IsOpen(s: seq<string>) {
    |s| == 7 && IsCall(s, "open(\"") && IsFree(s[3], '"') && s[4] == "\"," && IsBlank(s[5]) && IsFlagList(s[6])
  }

  /** pid connect(fd, {sa_family=AF_INET, sin_port=htons(port), sin_addr=inet_addr("ip") */
  predicate IsConnect(s: seq<string>) {
    && |s| == 15 && IsCall(s, "connect(") && IsNumber(s[3]) && s[4] == "," && IsBlank(s[5])
    && s[6] == "{sa_family=AF_INET," && IsBlank(s[7]) && s[8] == "sin_port=htons(" && IsNumber(s[9]) && s[10] == "),"
    && IsBlank(s[11]) && s[12] == "sin_addr=inet_addr(\"" && IsFree(s[13], '"') && s[14] == "\")"
  }

  /** pid execve( */
  predicate IsAnyExecve(s: seq<string>) {
    |s| == 3 && IsCall(s, "execve(")
  }

  lemma PatternsInPlainTerms(s: seq<string>)
    ensures AllFit(EXECVE, s) <==> IsExecve(s)
    ensures AllFit(OPEN, s) <==> IsOpen(s)
    ensures AllFit(ROOT_EXECVE, s) <==> IsAnyExecve(s)
  {
  }

  lemma OpenatInPlainTerms(s: seq<string>)
    ensures AllFit(OPENAT, s) <==> IsOpenat(s)
  {
  }

  lemma ConnectInPlainTerms(s: seq<string>)
    ensures AllFit(CONNECT, s) <==> IsConnect(s)
  {
  }

  /** A line starts with such a call; a list of flags is taken to its end. */
  predicate Begins(line: string, s: seq<string>) {
    Join(s) <= line
  }

  predicate BeginsWithFlags(line: string, s: seq<string>) {
    Join(s) <= line && (|Join(s)| < |line| ==> !IsFlagChar(line[|Join(s)|]))
  }

  lemma ScannedExactly(line: string, s: seq<string>)
    ensures Scan(EXECVE, line) == Some(s) <==> IsExecve(s) && Begins(line, s)
    ensures Scan(ROOT_EXECVE, line) == Some(s) <==> IsAnyExecve(s) && Begins(line, s)
    ensures Scan(CONNECT, line) == Some(s) <==> IsConnect(s) && Begins(line, s)
  {
    PatternsAreSeparated();
    ScanIsTheMatch(EXECVE, line, s);
    ScanIsTheMatch(ROOT_EXECVE, line, s);
    ScanIsTheMatch(CONNECT, line, s);
    PatternsInPlainTerms(s);
    ConnectInPlainTerms(s);
  }

  lemma OpensScannedExactly(line: string, s: seq<string>)
    ensures Scan(OPENAT, line) == Some(s) <==> IsOpenat(s) && BeginsWithFlags(line, s)
    ensures Scan(OPEN, line) == Some(s) <==> IsOpen(s) && BeginsWithFlags(line, s)
  {
    PatternsAreSeparated();
    ScanIsTheMatch(OPENAT, line, s);
    ScanIsTheMatch(OPEN, line, s);
    PatternsInPlainTerms(s);
    OpenatInPlainTerms(s);
  }

  /** The event of a line is what its call says, number by number and name by name. */
  lemma EventIs(line: string, s: seq<string>)
    ensures IsExecve(s) && Begins(line, s) ==>
      LineEvents(line) == [Spawned(Read(s[0], 4294967295), BaseName(s[3]))]
    ensures IsOpenat(s) && BeginsWithFlags(line, s) ==> LineEvents(line) == if OpensForWriting(s[10]) then [Wrote(s[7])] else []
    ensures IsOpen(s) && BeginsWithFlags(line, s) ==> LineEvents(line) == if OpensForWriting(s[6]) then [Wrote(s[3])] else []
    ensures IsConnect(s) && Begins(line, s) ==> LineEvents(line) == [Connected(s[13], Read(s[9], 65535))]
  {
    ScannedExactly(line, s);
    OpensScannedExactly(line, s);
    CallsAreDistinct(line);
  }

  /** A number in decimal digits, 0 when it is above `max`. */
  function Read(digits: string, max: nat): nat
    requires IsNumber(digits)
  {
    Parsed(digits, max)
  }

  /** A line has no event unless it starts with one of the four calls. */
  lemma NoOtherEvents(line: string)
    requires LineEvents(line) != []
    ensures exists s ::
      || (IsExecve(s) && Begins(line, s)) || (IsConnect(s) && Begins(line, s))
      || (IsOpenat(s) && BeginsWithFlags(line, s)) || (IsOpen(s) && BeginsWithFlags(line, s))
  {
    var s := if Scan(EXECVE, line).Some? then Scan(EXECVE, line).value
      else if Scan(OPENAT, line).Some? then Scan(OPENAT, line).value
      else if Scan(OPEN, line).Some? then Scan(OPEN, line).value else Scan(CONNECT, line).value;
    ScannedExactly(line, s);
    OpensScannedExactly(line, s);
  }

  /** The line that strip_root_execve takes out. */
  lemma RootIs(piece: string)
    ensures IsRoot(piece) <==> exists s :: IsAnyExecve(s) && Begins(Trim(piece), s)
  {
    var line := Trim(piece);
    if IsRoot(piece) {
      ScannedExactly(line, Scan(ROOT_EXECVE, line).value);
    }
    if s :| IsAnyExecve(s) && Begins(line, s) {
      ScannedExactly(line, s);
    }
  }

  /** Reading undoes writing: pids up to 32 bits and ports up to 16 bits are read as they are, and
      what is larger reads as 0. */
  lemma NumbersAreRead(n: nat)
    ensures IsNumber(Numerals.Decimal(n))
    ensures Read(Numerals.Decimal(n), 4294967295) == if n <= 4294967295 then n else 0
    ensures Read(Numerals.Decimal(n), 65535) == if n <= 65535 then n else 0
  {
    ValueOfDecimal(n);
  }

  lemma {:induction false} ValueOfDecimal(n: nat)
    ensures IsNumber(Numerals.Decimal(n)) && Value(Numerals.Decimal(n)) == n
  {
    if n >= 10 {
      ValueOfDecimal(n / 10);
      ValueAppend(Numerals.Decimal(n / 10), Numerals.Digit(n % 10));
    } else {
      ValueAppend("", Numerals.Digit(n % 10));
    }
  }

  lemma ValueAppend(digits: string, last: char)
    requires AllIn(digits, Digit) && '0' <= last <= '9'
    ensures AllIn(digits + [last], Digit) && Value(digits + [last]) == 10 * Value(digits) + (last as int - '0' as int)
  {
    assert (digits + [last])[..|digits|] == digits;
  }

  lemma ContainsIs(s: string, part: string)
    ensures Contains(s, part) <==> exists a, b :: Holds(s, a, part, b)
  {
    if Contains(s, part) {
      var i :| 0 <= i <= |s| && part <= s[i..];
      assert Holds(s, s[..i], part, s[i..][|part|..]);
    }
    if a, b :| Holds(s, a, part, b) {
      assert s[|a|..] == part + b;
    }
  }

  /** A list of flags opens for writing exactly if O_WRONLY, O_RDWR or O_CREAT stands in it. */
  lemma WritesExactly(flags: string)
    ensures OpensForWriting(flags) <==> StandsIn("O_WRONLY", flags) || StandsIn("O_RDWR", flags) || StandsIn("O_CREAT", flags)
  {
    var w := WRITE_FLAGS;
    ContainsIs(flags, w[0]);
    ContainsIs(flags, w[1]);
    ContainsIs(flags, w[2]);
    assert OpensForWriting(flags) <==> Contains(flags, w[0]) || Contains(flags, w[1]) || Contains(flags, w[2]);
  }

  ghost predicate StandsIn(part: string, s: string) {
    exists a, b :: Holds(s, a, part, b)
  }

  predicate Holds(s: string, a: string, w: string, b: string) {
    s == a + w + b
  }

  /** What is stripped is never more than one process event. */
  lemma RootLineSpawns(piece: string)
    requires IsRoot(piece)
    ensures PieceEvents(piece) == [] || (|PieceEvents(piece)| == 1 && IsSpawn(PieceEvents(piece)[0]))
  {
    CallsAreDistinct(Trim(piece));
  }

  /** The spawned name is the part of the path after its last '/'. */
  lemma {:induction false} BaseNameIs(dir: string, name: string)
    requires '/' !in name && (dir == "" || dir[|dir| - 1] == '/')
    ensures BaseName(dir + name) == name
    decreases |name|
  {
    if name == "" {
      assert dir + name == dir;
    } else {
      var last := |name| - 1;
      assert dir + name == (dir + name[..last]) + [name[last]];
      BaseNameIs(dir, name[..last]);
      BaseNameAppend(dir + name[..last], name[last]);
    }
  }

  lemma BaseNameAppend(path: string, c: char)
    requires c != '/'
    ensures BaseName(path + [c]) == BaseName(path) + [c]
  {
    assert (path + [c])[..|path|] == path;
  }

  /** A flag list opens for writing exactly when one of its '|'-separated names holds a write
      flag: no write flag spans a separator. */
  lemma FlagNames(a: string, b: string)
    ensures OpensForWriting(a + "|" + b) <==> OpensForWriting(a) || OpensForWriting(b)
  {
    forall i | 0 <= i < |WRITE_FLAGS|
      ensures Contains(a + "|" + b, WRITE_FLAGS[i]) <==> Contains(a, WRITE_FLAGS[i]) || Contains(b, WRITE_FLAGS[i]) {
      if Contains(a + "|" + b, WRITE_FLAGS[i]) {
        InOneSide(a, b, WRITE_FLAGS[i]);
      } else if Contains(a, WRITE_FLAGS[i]) || Contains(b, WRITE_FLAGS[i]) {
        InWhole(a, b, WRITE_FLAGS[i]);
      }
    }
  }

  lemma DropPast(front: string, back: string, k: nat)
    requires k <= |back|
    ensures (front + back)[|front| + k..] == back[k..]
  {
  }

  lemma InOneSide(a: string, b: string, part: string)
    requires part != "" && '|' !in part && Contains(a + "|" + b, part)
    ensures Contains(a, part) || Contains(b, part)
  {
    var s := a + "|" + b;
    var i :| 0 <= i <= |s| && part <= s[i..];
    assert forall k :: i <= k < i + |part| ==> s[k] == s[i..][k - i] == part[k - i] != '|';
    assert s[|a|] == '|';
    if i + |part| <= |a| {
      assert part <= a[i..];
    } else {
      assert i > |a|;
      DropPast(a + "|", b, i - |a| - 1);
    }
  }

  lemma InWhole(a: string, b: string, part: string)
    requires Contains(a, part) || Contains(b, part)
    ensures Contains(a + "|" + b, part)
  {
    var s := a + "|" + b;
    if Contains(a, part) {
      var i :| 0 <= i <= |a| && part <= a[i..];
      assert s[i..] == a[i..] + "|" + b;
      assert part <= s[i..];
    } else {
      var i :| 0 <= i <= |b| && part <= b[i..];
      DropPast(a + "|", b, i);
      assert part <= s[|a| + 1 + i..];
    }
  }
}
