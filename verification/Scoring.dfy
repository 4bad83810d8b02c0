/** Canonical events (verdict-engine/schemas.py) and the four behaviours both scorers and the
    feature extractor look for. */
module Events {
  import opened Options
  import opened Sequences

  datatype EventType = ProcessSpawn | FileWrite | FileDelete | NetworkConnect
  datatype ProcessRef = ProcessRef(pid: int, name: string)
  datatype NetworkRef = NetworkRef(dstIp: string, dstPort: int)
  datatype FileRef = FileRef(path: string)
  datatype Event = Event(
    eventType: EventType, process: Option<ProcessRef>, network: Option<NetworkRef>, file: Option<FileRef>)

  /** A line of the causal chain, before it is put into words. */
  datatype Reason =
    | SpawnedChild(process: ProcessRef)
    | WroteSensitive(path: string)
    | OddPort(network: NetworkRef)
    | ManyFiles(count: nat)

  const SENSITIVE_PREFIXES := ["/etc/", "/bin/", "/usr/", "/boot/", "/sbin/"]
  const STANDARD_PORTS: set<int> := {80, 443}
  const RAPID_FILE_CHANGE_THRESHOLD := 5

  function Spawned(pid: int, name: string): Event {
    Event(ProcessSpawn, Some(ProcessRef(pid, name)), None, None)
  }

  function Wrote(path: string): Event {
    Event(FileWrite, None, None, Some(FileRef(path)))
  }

  function Connected(ip: string, port: int): Event {
    Event(NetworkConnect, None, Some(NetworkRef(ip, port)), None)
  }

  predicate IsSensitivePath(path: string) {
    exists i :: 0 <= i < |SENSITIVE_PREFIXES| && SENSITIVE_PREFIXES[i] <= path
  }

  predicate IsSpawn(e: Event) {
    e.eventType.ProcessSpawn? && e.process.Some?
  }

  predicate IsSensitiveWrite(e: Event) {
    e.eventType.FileWrite? && e.file.Some? && IsSensitivePath(e.file.value.path)
  }

  predicate IsOddConnect(e: Event) {
    e.eventType.NetworkConnect? && e.network.Some? && e.network.value.dstPort !in STANDARD_PORTS
  }

  predicate IsFileChange(e: Event) {
    e.eventType.FileWrite? || e.eventType.FileDelete?
  }

  /** Which of the four rules fire. */
  datatype Features = Features(spawn: bool, sensitive: bool, odd: bool, rapid: bool) {
    function Count(): nat {
      (if spawn then 1 else 0) + (if sensitive then 1 else 0) + (if odd then 1 else 0) + (if rapid then 1 else 0)
    }
  }

  /** extract_features of train.py. */
  function ExtractFeatures(events: seq<Event>): Features {
    Features(
      exists i :: 0 <= i < |events| && IsSpawn(events[i]),
      exists i :: 0 <= i < |events| && IsSensitiveWrite(events[i]),
      exists i :: 0 <= i < |events| && IsOddConnect(events[i]),
      |Filter(IsFileChange, events)| > RAPID_FILE_CHANGE_THRESHOLD)
  }

  predicate StartsWith(path: string, prefix: string) {
    |prefix| <= |path| && path[..|prefix|] == prefix
  }

  /** Which single events the rules look for. */
  lemma RulesInPlainTerms(e: Event)
    ensures IsSpawn(e) <==> e.eventType == ProcessSpawn && e.process.Some?
    ensures e.file.Some? ==> (
      var path := e.file.value.path;
      IsSensitiveWrite(e) <==> (
        && e.eventType == FileWrite
        && (StartsWith(path, "/etc/") || StartsWith(path, "/bin/") || StartsWith(path, "/usr/")
            || StartsWith(path, "/boot/") || StartsWith(path, "/sbin/"))))
    ensures e.file.None? ==> !IsSensitiveWrite(e)
    ensures IsOddConnect(e) <==>
      e.eventType == NetworkConnect && e.network.Some? && e.network.value.dstPort != 80 && e.network.value.dstPort != 443
    ensures IsFileChange(e) <==> e.eventType == FileWrite || e.eventType == FileDelete
  {
    var prefixes := SENSITIVE_PREFIXES;
    if e.file.Some? {
      var path := e.file.value.path;
      assert IsSensitivePath(path) <==>
        prefixes[0] <= path || prefixes[1] <= path || prefixes[2] <= path || prefixes[3] <= path || prefixes[4] <= path;
    }
  }

  /** ... and how many of them it takes: one, but more than five changes of files. */
  lemma FeaturesInPlainTerms(events: seq<Event>)
    ensures var f := ExtractFeatures(events);
      && (f.spawn <==> exists e :: e in events && IsSpawn(e))
      && (f.sensitive <==> exists e :: e in events && IsSensitiveWrite(e))
      && (f.odd <==> exists e :: e in events && IsOddConnect(e))
      && (f.rapid <==> |Filter(IsFileChange, events)| >= 6)
  {
  }

  /** Adding events anywhere switches rules on, never off. */
  lemma FeaturesGrow(few: seq<Event>, many: seq<Event>)
    requires multiset(few) <= multiset(many)
    ensures var f, g := ExtractFeatures(few), ExtractFeatures(many);
      (f.spawn ==> g.spawn) && (f.sensitive ==> g.sensitive) && (f.odd ==> g.odd) && (f.rapid ==> g.rapid)
  {
    MoreKept(IsSpawn, few, many);
    MoreKept(IsSensitiveWrite, few, many);
    MoreKept(IsOddConnect, few, many);
    MoreKept(IsFileChange, few, many);
    FeaturesAreKept(few);
    FeaturesAreKept(many);
  }

  /** A rule over single events fires exactly when its filter keeps something. */
  lemma FeaturesAreKept(events: seq<Event>)
    ensures var f := ExtractFeatures(events);
      && (f.spawn <==> |Filter(IsSpawn, events)| > 0)
      && (f.sensitive <==> |Filter(IsSensitiveWrite, events)| > 0)
      && (f.odd <==> |Filter(IsOddConnect, events)| > 0)
      && (f.rapid <==> |Filter(IsFileChange, events)| > RAPID_FILE_CHANGE_THRESHOLD)
  {
    FilterKeeps(IsSpawn, events);
    FilterKeeps(IsSensitiveWrite, events);
    FilterKeeps(IsOddConnect, events);
  }

  /** Features do not depend on the order of events. */
  lemma FeaturesIgnoreOrder(a: seq<Event>, b: seq<Event>)
    requires multiset(a) == multiset(b)
    ensures ExtractFeatures(a) == ExtractFeatures(b)
  {
    FeaturesGrow(a, b);
    FeaturesGrow(b, a);
  }
}

/** verdict-engine/rule_scorer.py, with confidence in twentieths. */
module RuleScorer {
  import opened Sequences
  import opened Events
  import opened Verdicts

  const CHILD_PROCESS := 6
  const SENSITIVE_WRITE := 5
  const ODD_PORT := 4
  const RAPID_FILE_CHANGES := 5
  const FULL := 20
  const COMPROMISED_AT := 12

  /** The weight of the rules that fire. */
  function Weight(f: Features): nat {
    (if f.spawn then CHILD_PROCESS else 0) + (if f.sensitive then SENSITIVE_WRITE else 0)
    + (if f.odd then ODD_PORT else 0) + (if f.rapid then RAPID_FILE_CHANGES else 0)
  }

  function SpawnReason(events: seq<Event>): seq<Reason> {
    var kept := Filter(IsSpawn, events);
    FilterKeeps(IsSpawn, events);
    if kept == [] then [] else [SpawnedChild(kept[0].process.value)]
  }

  function SensitiveReason(events: seq<Event>): seq<Reason> {
    var kept := Filter(IsSensitiveWrite, events);
    FilterKeeps(IsSensitiveWrite, events);
    if kept == [] then [] else [WroteSensitive(kept[0].file.value.path)]
  }

  function OddPortReason(events: seq<Event>): seq<Reason> {
    var kept := Filter(IsOddConnect, events);
    FilterKeeps(IsOddConnect, events);
    if kept == [] then [] else [OddPort(kept[0].network.value)]
  }

  function RapidReason(events: seq<Event>): seq<Reason> {
    var changes := |Filter(IsFileChange, events)|;
    if changes <= RAPID_FILE_CHANGE_THRESHOLD then [] else [ManyFiles(changes)]
  }

  /** The reasons of the rules that fire, in rule order, each naming its first event. */
  function Reasons(events: seq<Event>): seq<Reason> {
    SpawnReason(events) + SensitiveReason(events) + OddPortReason(events) + RapidReason(events)
  }

  lemma WeightOfReasons(events: seq<Event>)
    ensures Weight(ExtractFeatures(events))
         == CHILD_PROCESS * |SpawnReason(events)| + SENSITIVE_WRITE * |SensitiveReason(events)|
            + ODD_PORT * |OddPortReason(events)| + RAPID_FILE_CHANGES * |RapidReason(events)|
    ensures |Reasons(events)| == ExtractFeatures(events).Count()
  {
    FeaturesAreKept(events);
  }

  /** Each reason is about the first event of its kind, and the last one counts the changes. */
  lemma ReasonsNameFirst(events: seq<Event>, k: nat)
    requires k < |events|
    ensures IsSpawn(events[k]) && (forall j :: 0 <= j < k ==> !IsSpawn(events[j])) ==>
      SpawnReason(events) == [SpawnedChild(events[k].process.value)]
    ensures IsSensitiveWrite(events[k]) && (forall j :: 0 <= j < k ==> !IsSensitiveWrite(events[j])) ==>
      SensitiveReason(events) == [WroteSensitive(events[k].file.value.path)]
    ensures IsOddConnect(events[k]) && (forall j :: 0 <= j < k ==> !IsOddConnect(events[j])) ==>
      OddPortReason(events) == [OddPort(events[k].network.value)]
    ensures RapidReason(events) != [] ==> RapidReason(events) == [ManyFiles(|Filter(IsFileChange, events)|)]
  {
    if IsSpawn(events[k]) && forall j :: 0 <= j < k ==> !IsSpawn(events[j]) {
      FilterKeepsFirst(IsSpawn, events, k);
    }
    if IsSensitiveWrite(events[k]) && forall j :: 0 <= j < k ==> !IsSensitiveWrite(events[j]) {
      FilterKeepsFirst(IsSensitiveWrite, events, k);
    }
    if IsOddConnect(events[k]) && forall j :: 0 <= j < k ==> !IsOddConnect(events[j]) {
      FilterKeepsFirst(IsOddConnect, events, k);
    }
  }

  method ScoreEvents(events: seq<Event>) returns (confidence: nat, chain: seq<Reason>)
    ensures confidence == Weight(ExtractFeatures(events)) && confidence <= FULL
    ensures var f := ExtractFeatures(events);
      confidence == (if f.spawn then 6 else 0) + (if f.sensitive then 5 else 0) + (if f.odd then 4 else 0) + (if f.rapid then 5 else 0)
    ensures chain == Reasons(events) && |chain| == ExtractFeatures(events).Count()
  {
    confidence, chain := 0, [];
    var spawns := Filter(IsSpawn, events);
    if |spawns| > 0 {
      FilterKeeps(IsSpawn, events);
      confidence := confidence + CHILD_PROCESS;
      chain := chain + [SpawnedChild(spawns[0].process.value)];
    }
    assert chain == SpawnReason(events) && confidence == CHILD_PROCESS * |chain|;
    var sensitive := Filter(IsSensitiveWrite, events);
    if |sensitive| > 0 {
      FilterKeeps(IsSensitiveWrite, events);
      confidence := confidence + SENSITIVE_WRITE;
      chain := chain + [WroteSensitive(sensitive[0].file.value.path)];
    }
    assert chain == SpawnReason(events) + SensitiveReason(events);
    var oddConns := Filter(IsOddConnect, events);
    if |oddConns| > 0 {
      FilterKeeps(IsOddConnect, events);
      confidence := confidence + ODD_PORT;
      chain := chain + [OddPort(oddConns[0].network.value)];
    }
    assert chain == SpawnReason(events) + SensitiveReason(events) + OddPortReason(events);
    var fileChanges := Filter(IsFileChange, events);
    if |fileChanges| > RAPID_FILE_CHANGE_THRESHOLD {
      confidence := confidence + RAPID_FILE_CHANGES;
      chain := chain + [ManyFiles(|fileChanges|)];
    }
    WeightOfReasons(events);
    confidence := if confidence < FULL then confidence else FULL;
  }

  function VerdictFromScore(confidence: nat, hadTelemetry: bool): Label {
    if !hadTelemetry then Inconclusive
    else if confidence == 0 then Normal
    else if confidence < COMPROMISED_AT then Suspicious
    else Compromised
  }

  /** The verdict on a list of events, as /score computes it. */
  function Verdict(events: seq<Event>): Label {
    VerdictFromScore(Weight(ExtractFeatures(events)), |events| > 0)
  }

  /** With telemetry the verdict depends only on how many rules fire. */
  lemma VerdictCountsRules(events: seq<Event>)
    requires events != []
    ensures var n := ExtractFeatures(events).Count();
      Verdict(events) == if n == 0 then Normal else if n <= 2 then Suspicious else Compromised
  {
  }

  /** The confidence ignores order and never falls when events are added; the cap at 1.0 is
      met exactly when all four rules fire, and nothing is ever cut off. */
  lemma ConfidenceIsMonotone(few: seq<Event>, many: seq<Event>)
    requires multiset(few) <= multiset(many)
    ensures Weight(ExtractFeatures(few)) <= Weight(ExtractFeatures(many)) <= FULL
    ensures multiset(few) == multiset(many) ==> ExtractFeatures(few) == ExtractFeatures(many)
    ensures Weight(ExtractFeatures(many)) == FULL <==> ExtractFeatures(many) == Features(true, true, true, true)
  {
    FeaturesGrow(few, many);
    if multiset(few) == multiset(many) {
      FeaturesIgnoreOrder(few, many);
    }
  }
}

/** verdict-engine/trained_scorer.py. The logistic function is a parameter. */
module TrainedScorer {
  import opened Sequences
  import opened Events
  import opened Verdicts
  import RuleScorer

  datatype Weights = Weights(spawn: real, sensitive: real, odd: real, rapid: real, intercept: real)

  /** trained_weights.json */
  const SHIPPED := Weights(4.402391551458926, 2.3934646783541496, 4.279286107024177, 2.276020445631572, -5.430341374081018)

  datatype Contribution = Contribution(weight: real, text: Reason)

  function Sum(w: Weights, f: Features): real {
    (if f.spawn then w.spawn else 0.0) + (if f.sensitive then w.sensitive else 0.0)
    + (if f.odd then w.odd else 0.0) + (if f.rapid then w.rapid else 0.0) + w.intercept
  }

  lemma SumInPlainTerms(w: Weights, spawn: bool, sensitive: bool, odd: bool, rapid: bool)
    ensures Sum(w, Features(spawn, sensitive, odd, rapid)) ==
      w.intercept + (if spawn then w.spawn else 0.0) + (if sensitive then w.sensitive else 0.0)
      + (if odd then w.odd else 0.0) + (if rapid then w.rapid else 0.0)
  {
  }

  function Texts(cs: seq<Contribution>): seq<Reason> {
    Map((c: Contribution) => c.text, cs)
  }

  function Total(cs: seq<Contribution>): real {
    if cs == [] then 0.0 else Total(cs[..|cs| - 1]) + cs[|cs| - 1].weight
  }

  predicate Descending(cs: seq<Contribution>) {
    forall i, j :: 0 <= i < j < |cs| ==> cs[i].weight >= cs[j].weight
  }

  /** Puts `c` behind every element of at least its weight. */
  function Insert(cs: seq<Contribution>, c: Contribution): (r: seq<Contribution>)
    ensures multiset(r) == multiset(cs) + multiset{c}
  {
    if cs == [] || cs[|cs| - 1].weight >= c.weight then cs + [c]
    else
      var last := |cs| - 1;
      assert cs == cs[..last] + [cs[last]];
      Insert(cs[..last], c) + [cs[last]]
  }

  /** Each element of the result is `c`, or one of `cs`. */
  lemma InsertedFrom(cs: seq<Contribution>, c: Contribution, i: nat) returns (j: nat)
    requires i < |Insert(cs, c)|
    ensures if j < |cs| then Insert(cs, c)[i] == cs[j] else Insert(cs, c)[i] == c
  {
    var x := Insert(cs, c)[i];
    assert x in multiset(Insert(cs, c));
    if x in cs {
      j :| 0 <= j < |cs| && cs[j] == x;
    } else {
      j := |cs|;
    }
  }

  lemma {:induction false} InsertKeepsOrder(cs: seq<Contribution>, c: Contribution)
    requires Descending(cs)
    ensures Descending(Insert(cs, c))
  {
    if cs != [] && cs[|cs| - 1].weight < c.weight {
      var last := |cs| - 1;
      var front := cs[..last];
      InsertKeepsOrder(front, c);
      forall i | 0 <= i < |Insert(front, c)| ensures Insert(front, c)[i].weight >= cs[last].weight {
        var j := InsertedFrom(front, c, i);
        assert j < |front| ==> front[j] == cs[j];
      }
    }
  }

  /** list.sort(key=weight, reverse=True): descending, and stable. */
  function SortByWeight(cs: seq<Contribution>): (r: seq<Contribution>)
    ensures Descending(r) && multiset(r) == multiset(cs)
  {
    if cs == [] then []
    else
      var last := |cs| - 1;
      assert cs == cs[..last] + [cs[last]];
      var r := SortByWeight(cs[..last]);
      InsertKeepsOrder(r, cs[last]);
      Insert(r, cs[last])
  }

  function HasWeight(weight: real): Contribution -> bool {
    (c: Contribution) => c.weight == weight
  }

  function AtWeight(cs: seq<Contribution>, weight: real): seq<Contribution> {
    Filter(HasWeight(weight), cs)
  }

  lemma AtWeightAppend(cs: seq<Contribution>, c: Contribution, weight: real)
    ensures AtWeight(cs + [c], weight) == AtWeight(cs, weight) + (if c.weight == weight then [c] else [])
  {
    FilterAppend(HasWeight(weight), cs, c);
  }

  lemma {:induction false} InsertIsStable(cs: seq<Contribution>, c: Contribution, weight: real)
    ensures AtWeight(Insert(cs, c), weight) == AtWeight(cs, weight) + (if c.weight == weight then [c] else [])
  {
    if cs == [] || cs[|cs| - 1].weight >= c.weight {
      AtWeightAppend(cs, c, weight);
    } else {
      var last := |cs| - 1;
      InsertIsStable(cs[..last], c, weight);
      AtWeightAppend(cs[..last], cs[last], weight);
      AtWeightAppend(Insert(cs[..last], c), cs[last], weight);
      assert cs == cs[..last] + [cs[last]];
    }
  }

  /** Equal weights keep their rule order. */
  lemma {:induction false} SortIsStable(cs: seq<Contribution>, weight: real)
    ensures AtWeight(SortByWeight(cs), weight) == AtWeight(cs, weight)
  {
    if cs != [] {
      var last := |cs| - 1;
      SortIsStable(cs[..last], weight);
      InsertIsStable(SortByWeight(cs[..last]), cs[last], weight);
    }
  }

  lemma {:induction false} InsertKeepsTexts(cs: seq<Contribution>, c: Contribution)
    ensures multiset(Texts(Insert(cs, c))) == multiset(Texts(cs)) + multiset{c.text}
  {
    if cs == [] || cs[|cs| - 1].weight >= c.weight {
      Concat(cs, [c]);
    } else {
      var last := |cs| - 1;
      InsertKeepsTexts(cs[..last], c);
      Concat(Insert(cs[..last], c), [cs[last]]);
    }
  }

  /** Sorting rearranges the reasons and drops none. */
  lemma {:induction false} SortKeepsTexts(cs: seq<Contribution>)
    ensures multiset(Texts(SortByWeight(cs))) == multiset(Texts(cs))
  {
    if cs != [] {
      var last := |cs| - 1;
      SortKeepsTexts(cs[..last]);
      InsertKeepsTexts(SortByWeight(cs[..last]), cs[last]);
    }
  }

  lemma {:induction false} Concat(a: seq<Contribution>, b: seq<Contribution>)
    ensures Texts(a + b) == Texts(a) + Texts(b)
    ensures Total(a + b) == Total(a) + Total(b)
    decreases |b|
  {
    if b == [] {
      assert a + b == a;
    } else {
      var last := |b| - 1;
      Concat(a, b[..last]);
      assert (a + b)[..|a| + last] == a + b[..last];
    }
  }

  lemma ConcatFour(a: seq<Contribution>, b: seq<Contribution>, c: seq<Contribution>, d: seq<Contribution>)
    ensures Texts(a + b + c + d) == Texts(a) + Texts(b) + Texts(c) + Texts(d)
    ensures Total(a + b + c + d) == Total(a) + Total(b) + Total(c) + Total(d)
  {
    Concat(a, b);
    Concat(a + b, c);
    Concat(a + b + c, d);
  }

  /** What the rules that fire contribute, in rule order. */
  function Contributions(events: seq<Event>, w: Weights): seq<Contribution> {
    Weighed(w.spawn, RuleScorer.SpawnReason(events)) + Weighed(w.sensitive, RuleScorer.SensitiveReason(events))
    + Weighed(w.odd, RuleScorer.OddPortReason(events)) + Weighed(w.rapid, RuleScorer.RapidReason(events))
  }

  function Weighed(weight: real, reasons: seq<Reason>): seq<Contribution> {
    if reasons == [] then [] else [Contribution(weight, reasons[0])]
  }

  lemma ContributionsAreReasons(events: seq<Event>, w: Weights)
    ensures Texts(Contributions(events, w)) == RuleScorer.Reasons(events)
    ensures Total(Contributions(events, w)) + w.intercept == Sum(w, ExtractFeatures(events))
  {
    ConcatFour(
      Weighed(w.spawn, RuleScorer.SpawnReason(events)), Weighed(w.sensitive, RuleScorer.SensitiveReason(events)),
      Weighed(w.odd, RuleScorer.OddPortReason(events)), Weighed(w.rapid, RuleScorer.RapidReason(events)));
    FeaturesAreKept(events);
    WeighedOne(w.spawn, RuleScorer.SpawnReason(events));
    WeighedOne(w.sensitive, RuleScorer.SensitiveReason(events));
    WeighedOne(w.odd, RuleScorer.OddPortReason(events));
    WeighedOne(w.rapid, RuleScorer.RapidReason(events));
  }

  lemma WeighedOne(weight: real, reasons: seq<Reason>)
    requires |reasons| <= 1
    ensures Texts(Weighed(weight, reasons)) == reasons
    ensures Total(Weighed(weight, reasons)) == if reasons == [] then 0.0 else weight
  {
    if reasons != [] {
      assert Weighed(weight, reasons)[..0] == [];
    }
  }

  /** The first half of score_events. */
  method Contribute(events: seq<Event>, w: Weights) returns (contributions: seq<Contribution>)
    ensures contributions == Contributions(events, w)
  {
    contributions := [];
    var spawns := Filter(IsSpawn, events);
    if |spawns| > 0 {
      FilterKeeps(IsSpawn, events);
      contributions := contributions + [Contribution(w.spawn, SpawnedChild(spawns[0].process.value))];
    }
    ghost var done := Weighed(w.spawn, RuleScorer.SpawnReason(events));
    assert contributions == done;
    var sensitive := Filter(IsSensitiveWrite, events);
    if |sensitive| > 0 {
      FilterKeeps(IsSensitiveWrite, events);
      contributions := contributions + [Contribution(w.sensitive, WroteSensitive(sensitive[0].file.value.path))];
    }
    done := done + Weighed(w.sensitive, RuleScorer.SensitiveReason(events));
    assert contributions == done;
    var oddConns := Filter(IsOddConnect, events);
    if |oddConns| > 0 {
      FilterKeeps(IsOddConnect, events);
      contributions := contributions + [Contribution(w.odd, OddPort(oddConns[0].network.value))];
    }
    done := done + Weighed(w.odd, RuleScorer.OddPortReason(events));
    assert contributions == done;
    var fileChanges := Filter(IsFileChange, events);
    if |fileChanges| > RAPID_FILE_CHANGE_THRESHOLD {
      contributions := contributions + [Contribution(w.rapid, ManyFiles(|fileChanges|))];
    }
  }

  function Chain(events: seq<Event>, w: Weights): seq<Reason> {
    Texts(SortByWeight(Contributions(events, w)))
  }

  /** Each reason has the weight of its own rule. */
  lemma ReasonsHaveTheirWeights(events: seq<Event>, w: Weights, i: nat)
    requires i < |SortByWeight(Contributions(events, w))|
    ensures HasOwnWeight(SortByWeight(Contributions(events, w))[i], w)
  {
    var cs := Contributions(events, w);
    var c := SortByWeight(cs)[i];
    assert c in multiset(SortByWeight(cs));
    OwnWeight(events, w, c);
  }

  predicate HasOwnWeight(c: Contribution, w: Weights) {
    c.weight ==
      match c.text
      case SpawnedChild(_) => w.spawn
      case WroteSensitive(_) => w.sensitive
      case OddPort(_) => w.odd
      case ManyFiles(_) => w.rapid
  }

  lemma OwnWeight(events: seq<Event>, w: Weights, c: Contribution)
    requires c in Contributions(events, w)
    ensures HasOwnWeight(c, w)
  {
    var spawn, sensitive := RuleScorer.SpawnReason(events), RuleScorer.SensitiveReason(events);
    var odd, rapid := RuleScorer.OddPortReason(events), RuleScorer.RapidReason(events);
    assert c in Weighed(w.spawn, spawn) || c in Weighed(w.sensitive, sensitive)
      || c in Weighed(w.odd, odd) || c in Weighed(w.rapid, rapid);
  }

  method ScoreEvents(events: seq<Event>, w: Weights, sigmoid: real -> real) returns (confidence: real, chain: seq<Reason>)
    ensures confidence == sigmoid(Sum(w, ExtractFeatures(events)))
    ensures chain == Chain(events, w)
  {
    var contributions := Contribute(events, w);
    var sum := Total(contributions) + w.intercept;
    ContributionsAreReasons(events, w);
    ghost var total := Sum(w, ExtractFeatures(events));
    assert sum == total;
    confidence := sigmoid(sum);
    assert confidence == sigmoid(total);
    chain := Texts(SortByWeight(contributions));
  }

  /** The chain of the trained scorer holds the reasons of the rule scorer, heaviest first. */
  lemma ChainRearrangesReasons(events: seq<Event>, w: Weights)
    ensures multiset(Chain(events, w)) == multiset(RuleScorer.Reasons(events))
    ensures Descending(SortByWeight(Contributions(events, w)))
  {
    ContributionsAreReasons(events, w);
    SortKeepsTexts(Contributions(events, w));
  }

  function VerdictFromScore(confidence: real, hadTelemetry: bool): Label {
    if !hadTelemetry then Inconclusive
    else if confidence < 0.1 then Normal
    else if confidence < 0.6 then Suspicious
    else Compromised
  }

  function Verdict(events: seq<Event>, w: Weights, sigmoid: real -> real): Label {
    VerdictFromScore(sigmoid(Sum(w, ExtractFeatures(events))), |events| > 0)
  }

  /** What the logistic function 1 / (1 + exp(-x)) satisfies. */
  ghost predicate Logistic(sigmoid: real -> real) {
    && (forall x, y :: x < y ==> sigmoid(x) < sigmoid(y))
    && sigmoid(-2.20) < 0.1 <= sigmoid(-2.19) && sigmoid(0.40) < 0.6 <= sigmoid(0.41)
  }

  /** The shipped weights: Compromised exactly for a child process or an odd port together with
      any second rule; Normal exactly for none, or one of the two file rules alone. */
  lemma ShippedVerdict(events: seq<Event>, sigmoid: real -> real)
    requires Logistic(sigmoid) && events != []
    ensures var f := ExtractFeatures(events);
      && (Verdict(events, SHIPPED, sigmoid).Compromised? <==> (f.spawn || f.odd) && f.Count() >= 2)
      && (Verdict(events, SHIPPED, sigmoid).Normal? <==> !f.spawn && !f.odd && f.Count() <= 1)
  {
    var x := Sum(SHIPPED, ExtractFeatures(events));
    assert x < -2.20 || (-2.19 < x < 0.40) || 0.41 < x;
  }

  /** Whatever the rules call Compromised, the trained scorer does too; it adds exactly the
      pairs of rules that include a child process or an odd port. */
  lemma TrainedIsStricter(events: seq<Event>, sigmoid: real -> real)
    requires Logistic(sigmoid) && events != []
    ensures RuleScorer.Verdict(events).Compromised? ==> Verdict(events, SHIPPED, sigmoid).Compromised?
    ensures Verdict(events, SHIPPED, sigmoid).Compromised? && !RuleScorer.Verdict(events).Compromised? <==>
      var f := ExtractFeatures(events); f.Count() == 2 && (f.spawn || f.odd)
  {
    ShippedVerdict(events, sigmoid);
    RuleScorer.VerdictCountsRules(events);
  }
}
