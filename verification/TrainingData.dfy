/** The random source of generate_training_data.py: every outcome the calls can have. */
module RandomDraws {

  method RandInt(lo: int, hi: int) returns (r: int)
    requires lo <= hi
    ensures lo <= r <= hi
  {
    r :| lo <= r <= hi;
  }

  method Choice<T>(s: seq<T>) returns (r: T)
    requires s != []
    ensures r in s
  {
    var i := RandInt(0, |s| - 1);
    r := s[i];
  }

  /** random.shuffle: swaps each place, from the last, with one at or before it. */
  method Shuffle<T>(a: array<T>)
    modifies a
    ensures multiset(a[..]) == multiset(old(a[..]))
  {
    var i := a.Length;
    while i > 1
      invariant multiset(a[..]) == multiset(old(a[..]))
    {
      i := i - 1;
      var j := RandInt(0, i);
      a[i], a[j] := a[j], a[i];
    }
  }

  method Shuffled<T>(s: seq<T>) returns (r: seq<T>)
    ensures multiset(r) == multiset(s) && |r| == |s|
  {
    if s == [] {
      return s;
    }
    var a := new T[|s|](i requires 0 <= i < |s| => s[i]);
    assert a[..] == s;
    Shuffle(a);
    r := a[..];
  }
}

/** verdict-engine/generate_training_data.py */
module TrainingData {
  import opened Options
  import opened Sequences
  import opened Events
  import Numerals
  import opened RandomDraws
  import TrainedScorer
  import RuleScorer

  const SENSITIVE_PATHS := ["/etc/passwd", "/etc/cron.d/job", "/bin/sh", "/usr/bin/foo", "/sbin/init"]
  const ODD_PORTS := [31337, 4444, 8081, 9001, 6667]
  const PROCESS_NAMES := ["sh", "bash", "touch", "curl", "nc", "python3"]
  const MINIMUM := 160
  const COMBINATIONS := 16

  datatype Example = Example(events: seq<Event>, positive: bool)

  /** Which single-event rules fire, and how many events change a file. */
  datatype Profile = Profile(spawn: bool, sensitive: bool, odd: bool, changes: nat)

  function ProfileOf(events: seq<Event>): Profile {
    var f := ExtractFeatures(events);
    Profile(f.spawn, f.sensitive, f.odd, |Filter(IsFileChange, events)|)
  }

  function With(p: Profile, e: Event): Profile {
    Profile(p.spawn || IsSpawn(e), p.sensitive || IsSensitiveWrite(e), p.odd || IsOddConnect(e),
            p.changes + if IsFileChange(e) then 1 else 0)
  }

  lemma AppendEvent(events: seq<Event>, e: Event)
    ensures ProfileOf(events + [e]) == With(ProfileOf(events), e)
  {
    FeaturesAreKept(events);
    FeaturesAreKept(events + [e]);
    FilterAppend(IsSpawn, events, e);
    FilterAppend(IsSensitiveWrite, events, e);
    FilterAppend(IsOddConnect, events, e);
    FilterAppend(IsFileChange, events, e);
  }

  lemma SensitivePathsAreSensitive(path: string)
    requires path in SENSITIVE_PATHS
    ensures IsSensitivePath(path)
  {
    var i :| 0 <= i < |SENSITIVE_PATHS| && SENSITIVE_PATHS[i] == path;
    if i < 2 {
      assert SENSITIVE_PREFIXES[0] <= path;
    } else if i == 2 {
      assert SENSITIVE_PREFIXES[1] <= path;
    } else if i == 3 {
      assert SENSITIVE_PREFIXES[2] <= path;
    } else {
      assert SENSITIVE_PREFIXES[4] <= path;
    }
  }

  lemma TmpIsNotSensitive(rest: string)
    ensures !IsSensitivePath("/tmp/" + rest)
  {
    forall i | 0 <= i < |SENSITIVE_PREFIXES| ensures !(SENSITIVE_PREFIXES[i] <= "/tmp/" + rest) {
      assert ("/tmp/" + rest)[1] == 't' && SENSITIVE_PREFIXES[i][1] != 't';
    }
  }

  /** Appends the file writes "/tmp/<stem>0", "/tmp/<stem>1", ... */
  method AppendWrites(events: seq<Event>, stem: string, n: nat) returns (r: seq<Event>)
    ensures |r| == |events| + n
    ensures ProfileOf(r) == ProfileOf(events).(changes := ProfileOf(events).changes + n)
  {
    r := events;
    for i := 0 to n
      invariant |r| == |events| + i
      invariant ProfileOf(r) == ProfileOf(events).(changes := ProfileOf(events).changes + i)
    {
      var e := Wrote("/tmp/" + (stem + Numerals.Decimal(i)));
      TmpIsNotSensitive(stem + Numerals.Decimal(i));
      AppendEvent(r, e);
      r := r + [e];
    }
  }

  method SpawnEvent() returns (e: Event)
    ensures IsSpawn(e)
  {
    var pid := RandInt(2, 60000);
    var name := Choice(PROCESS_NAMES);
    e := Spawned(pid, name);
  }

  method SensitiveEvent() returns (e: Event)
    ensures IsSensitiveWrite(e)
  {
    var path := Choice(SENSITIVE_PATHS);
    SensitivePathsAreSensitive(path);
    e := Wrote(path);
  }

  method OddEvent() returns (e: Event)
    ensures IsOddConnect(e)
  {
    var a := RandInt(0, 255);
    var b := RandInt(1, 254);
    var port := Choice(ODD_PORTS);
    e := Connected("10.0." + Numerals.Decimal(a) + "." + Numerals.Decimal(b), port);
  }

  lemma AddSpawn(events: seq<Event>, e: Event)
    requires IsSpawn(e)
    ensures ProfileOf(events + [e]) == ProfileOf(events).(spawn := true)
  {
    AppendEvent(events, e);
  }

  lemma AddSensitive(events: seq<Event>, e: Event)
    requires IsSensitiveWrite(e)
    ensures ProfileOf(events + [e]) == ProfileOf(events).(sensitive := true, changes := ProfileOf(events).changes + 1)
  {
    AppendEvent(events, e);
  }

  lemma AddOdd(events: seq<Event>, e: Event)
    requires IsOddConnect(e)
    ensures ProfileOf(events + [e]) == ProfileOf(events).(odd := true)
  {
    AppendEvent(events, e);
  }

  /** The events that make the three single-event rules fire. */
  method SingleEvents(combo: Features) returns (events: seq<Event>)
    ensures ProfileOf(events) == Profile(combo.spawn, combo.sensitive, combo.odd, if combo.sensitive then 1 else 0)
    ensures |events| == combo.(rapid := false).Count()
  {
    events := [];
    assert ProfileOf(events) == Profile(false, false, false, 0);
    if combo.spawn {
      var e := SpawnEvent();
      AddSpawn(events, e);
      events := events + [e];
    }
    assert ProfileOf(events) == Profile(combo.spawn, false, false, 0);
    if combo.sensitive {
      var e := SensitiveEvent();
      AddSensitive(events, e);
      events := events + [e];
    }
    assert ProfileOf(events) == Profile(combo.spawn, combo.sensitive, false, if combo.sensitive then 1 else 0);
    if combo.odd {
      var e := OddEvent();
      AddOdd(events, e);
      events := events + [e];
    }
  }

  /** _generate_one: whatever is drawn, exactly the rules of `combo` fire on the events. */
  method GenerateOne(combo: Features) returns (events: seq<Event>)
    ensures ExtractFeatures(events) == combo
    ensures var noise := |events| - combo.(rapid := false).Count();
      if combo.rapid then 6 <= noise <= 20 else 0 <= noise <= 3
  {
    events := SingleEvents(combo);
    if combo.rapid {
      var n := RandInt(6, 20);
      events := AppendWrites(events, "f", n);
    } else {
      var n := RandInt(0, 3);
      events := AppendWrites(events, "noise", n);
    }
    ghost var inOrder := events;
    FeaturesAreKept(inOrder);
    events := Shuffled(events);
    FeaturesIgnoreOrder(inOrder, events);
  }

  /** The label before noise; weights in twentieths, threshold 10. */
  predicate Truth(f: Features) {
    (if f.spawn then 7 else 0) + (if f.sensitive then 3 else 0)
    + (if f.odd then 7 else 0) + (if f.rapid then 3 else 0) >= 10
  }

  function Combo(i: nat): Features {
    Features(i % 2 == 1, i / 2 % 2 == 1, i / 4 % 2 == 1, i / 8 % 2 == 1)
  }

  function IndexOf(f: Features): (i: nat)
    ensures i < COMBINATIONS && Combo(i) == f
  {
    (if f.spawn then 1 else 0) + (if f.sensitive then 2 else 0) + (if f.odd then 4 else 0) + (if f.rapid then 8 else 0)
  }

  lemma CombosDiffer(i: nat, f: Features)
    requires i < COMBINATIONS
    ensures Combo(i) == f <==> i == IndexOf(f)
  {
  }

  predicate HasFeatures(f: Features, x: Example) {
    ExtractFeatures(x.events) == f
  }

  function Of(f: Features): Example -> bool {
    x => HasFeatures(f, x)
  }

  /** The examples as drawn: `per` of each combination in turn, the k-th label flipped
      exactly when the k-th noise draw says so. */
  ghost predicate Stratified(drawn: seq<Example>, per: nat, noise: nat -> bool) {
    per > 0 && forall k :: 0 <= k < |drawn| ==>
      && ExtractFeatures(drawn[k].events) == Combo(Block(k, per))
      && drawn[k].positive == (Truth(Combo(Block(k, per))) != noise(k))
  }

  /** The combination the k-th example was drawn for. */
  function Block(k: nat, per: nat): nat
    requires per > 0
  {
    k / per
  }

  /** How many of the first `n` of `per` blocks lie in block `i`. */
  function InBlock(n: nat, per: nat, i: nat): nat {
    if n <= i * per then 0 else if n >= (i + 1) * per then per else n - i * per
  }

  lemma {:induction false} BlockCounts(drawn: seq<Example>, per: nat, noise: nat -> bool, f: Features)
    requires Stratified(drawn, per, noise) && |drawn| <= COMBINATIONS * per
    ensures |Filter(Of(f), drawn)| == InBlock(|drawn|, per, IndexOf(f))
  {
    if drawn != [] {
      var last := |drawn| - 1;
      BlockCounts(drawn[..last], per, noise, f);
      BlockBelow(last, per, COMBINATIONS);
      CombosDiffer(Block(last, per), f);
      assert Of(f)(drawn[last]) <==> Block(last, per) == IndexOf(f);
      InNextBlock(last, per, IndexOf(f));
    }
  }

  lemma InNextBlock(n: nat, per: nat, i: nat)
    requires per > 0
    ensures InBlock(n + 1, per, i) == InBlock(n, per, i) + if Block(n, per) == i then 1 else 0
  {
    BlockBounds(n, per, i);
    assert (i + 1) * per == i * per + per;
  }

  lemma BlockBounds(n: nat, per: nat, i: nat)
    requires per > 0
    ensures Block(n, per) == i <==> i * per <= n < (i + 1) * per
  {
    var q, r := n / per, n % per;
    assert n == q * per + r;
    if q < i {
      assert (q + 1) * per <= i * per;
    } else if q > i {
      assert (i + 1) * per <= q * per;
    }
  }

  lemma BlockBelow(n: nat, per: nat, bound: nat)
    requires per > 0 && n < bound * per
    ensures Block(n, per) < bound
  {
    var q := n / per;
    assert n == q * per + n % per;
    assert (q - bound) * per == q * per - bound * per;
    assert q >= bound ==> (q - bound) * per >= 0;
  }

  /** The loops of generate_dataset. */
  method GenerateInTurn(per: nat, noise: nat -> bool) returns (made: seq<Example>)
    requires per > 0
    ensures |made| == COMBINATIONS * per && Stratified(made, per, noise)
  {
    made := [];
    for c := 0 to COMBINATIONS
      invariant |made| == c * per && Stratified(made, per, noise)
    {
      for j := 0 to per
        invariant |made| == c * per + j && Stratified(made, per, noise)
      {
        var events := GenerateOne(Combo(c));
        BlockBounds(|made|, per, c);
        made := made + [Example(events, Truth(Combo(c)) != noise(|made|))];
      }
    }
  }

  lemma Distribute(a: nat, b: nat, per: nat)
    ensures (a + b) * per == a * per + b * per && b * per >= 0
  {
  }

  lemma InWholeBlock(blocks: nat, per: nat, i: nat)
    requires i < blocks && per > 0
    ensures InBlock(blocks * per, per, i) == per
  {
    Distribute(i, 1, per);
    Distribute(i + 1, blocks - i - 1, per);
  }

  /** Every feature vector has its `per` examples, in whatever order they end up. */
  lemma StratifiedCounts(drawn: seq<Example>, dataset: seq<Example>, per: nat, noise: nat -> bool, f: Features)
    requires Stratified(drawn, per, noise) && |drawn| == COMBINATIONS * per
    requires multiset(dataset) == multiset(drawn)
    ensures |Filter(Of(f), dataset)| == per
  {
    BlockCounts(drawn, per, noise, f);
    SameKept(Of(f), drawn, dataset);
    InWholeBlock(COMBINATIONS, per, IndexOf(f));
  }

  /** generate_dataset: None is the ValueError. */
  method GenerateDataset(n: int, noise: nat -> bool) returns (dataset: Option<seq<Example>>, ghost drawn: seq<Example>)
    ensures dataset.None? <==> n < 160
    ensures n >= 160 ==> (
      var per := n / 16;
      && Stratified(drawn, per, noise) && |drawn| == 16 * per
      && multiset(dataset.value) == multiset(drawn)
      && forall f :: |Filter(Of(f), dataset.value)| == per)
  {
    if n < MINIMUM {
      return None, [];
    }
    var per := n / COMBINATIONS;
    var made := GenerateInTurn(per, noise);
    var shuffled := Shuffled(made);
    forall f ensures |Filter(Of(f), shuffled)| == per {
      StratifiedCounts(made, shuffled, per, noise, f);
    }
    dataset, drawn := Some(shuffled), made;
  }

  /** The shipped trained scorer calls exactly the noise-free positives Compromised, on every
      list of events; the rule scorer misses exactly the pairs with a child process or an odd port. */
  lemma TrainedLearntTheTruth(events: seq<Event>, sigmoid: real -> real)
    requires TrainedScorer.Logistic(sigmoid)
    ensures TrainedScorer.Verdict(events, TrainedScorer.SHIPPED, sigmoid).Compromised? <==> Truth(ExtractFeatures(events))
    ensures RuleScorer.Verdict(events).Compromised? <==>
      Truth(ExtractFeatures(events)) && ExtractFeatures(events).Count() != 2
  {
    if events != [] {
      TrainedScorer.ShippedVerdict(events, sigmoid);
      RuleScorer.VerdictCountsRules(events);
    } else {
      FeaturesAreKept(events);
    }
  }

  /** int(): towards zero. */
  function Truncated(x: real): int {
    if x >= 0.0 then x.Floor else -((-x).Floor)
  }

  /** Where items[:cut] ends and items[cut:] starts. */
  function SliceAt(length: nat, cut: int): nat {
    if cut >= 0 then (if cut < length then cut else length)
    else if length + cut > 0 then length + cut else 0
  }

  function Cut(length: nat, testFraction: real): nat {
    SliceAt(length, Truncated(length as real * (1.0 - testFraction)))
  }

  /** Of `length` examples, `kept` are the share that a test fraction leaves for training: rounded
      down between 0 and 1, all below, and above 1 counted from the end, where -0 is 0. */
  predicate IsShare(kept: nat, length: nat, testFraction: real) {
    Rounds(kept, length, length as real * (1.0 - testFraction))
  }

  predicate Rounds(kept: nat, length: nat, share: real) {
    if share >= length as real then kept == length
    else if share >= 0.0 then kept as real <= share < kept as real + 1.0
    else if share > -1.0 || -share >= length as real then kept == 0
    else kept <= length && (length - kept) as real <= -share < (length - kept) as real + 1.0
  }

  lemma CutRounds(length: nat, share: real)
    ensures Rounds(SliceAt(length, Truncated(share)), length, share)
  {
  }

  lemma Shrinks(length: real, fraction: real)
    requires length >= 0.0
    ensures 0.0 <= fraction ==> length * (1.0 - fraction) <= length
    ensures fraction <= 0.0 ==> length * (1.0 - fraction) >= length
    ensures fraction <= 1.0 ==> length * (1.0 - fraction) >= 0.0
  {
    assert length * (1.0 - fraction) == length - length * fraction;
    assert 0.0 <= fraction ==> length * fraction >= 0.0;
    assert fraction <= 0.0 ==> length * fraction <= 0.0;
    var rest := 1.0 - fraction;
    assert rest >= 0.0 ==> length * rest >= 0.0;
  }

  lemma CutIsShare(length: nat, testFraction: real)
    ensures IsShare(Cut(length, testFraction), length, testFraction)
    ensures testFraction <= 0.0 ==> Cut(length, testFraction) == length
    ensures 0.0 < testFraction <= 1.0 ==>
      Cut(length, testFraction) as real <= length as real * (1.0 - testFraction) < Cut(length, testFraction) as real + 1.0
  {
    CutRounds(length, length as real * (1.0 - testFraction));
    Shrinks(length as real, testFraction);
  }

  predicate Positive(x: Example) {
    x.positive
  }

  predicate Negative(x: Example) {
    !x.positive
  }

  lemma {:induction false} LabelsPartition(s: seq<Example>)
    ensures multiset(s) == multiset(Filter(Positive, s)) + multiset(Filter(Negative, s))
  {
    if s != [] {
      var last := |s| - 1;
      assert s == s[..last] + [s[last]];
      LabelsPartition(s[..last]);
    }
  }

  lemma {:induction false} NoneKept(p: Example -> bool, s: seq<Example>)
    requires forall i :: 0 <= i < |s| ==> !p(s[i])
    ensures Filter(p, s) == []
  {
    if s != [] {
      NoneKept(p, s[..|s| - 1]);
    }
  }

  lemma {:induction false} AllKept(p: Example -> bool, s: seq<Example>)
    requires forall i :: 0 <= i < |s| ==> p(s[i])
    ensures Filter(p, s) == s
  {
    if s != [] {
      AllKept(p, s[..|s| - 1]);
    }
  }

  /** What a half of the split keeps of each label. */
  lemma HalfKeeps(p: seq<Example>, n: seq<Example>, half: seq<Example>)
    requires multiset(half) == multiset(p + n)
    requires (forall x :: x in p ==> x.positive) && (forall x :: x in n ==> !x.positive)
    ensures |Filter(Positive, half)| == |p| && |Filter(Negative, half)| == |n|
  {
    SameKept(Positive, half, p + n);
    SameKept(Negative, half, p + n);
    FilterConcat(Positive, p, n);
    FilterConcat(Negative, p, n);
    AllKept(Positive, p);
    AllKept(Negative, n);
    NoneKept(Positive, n);
    NoneKept(Negative, p);
  }

  /** split_dataset: nothing is lost or shared, and each label is split at its own cut. */
  method SplitDataset(dataset: seq<Example>, testFraction: real) returns (train: seq<Example>, test: seq<Example>)
    ensures multiset(train) + multiset(test) == multiset(dataset)
    ensures |Filter(Positive, train)| == Cut(|Filter(Positive, dataset)|, testFraction)
    ensures |Filter(Negative, train)| == Cut(|Filter(Negative, dataset)|, testFraction)
    ensures IsShare(|Filter(Positive, train)|, |Filter(Positive, dataset)|, testFraction)
    ensures IsShare(|Filter(Negative, train)|, |Filter(Negative, dataset)|, testFraction)
  {
    CutIsShare(|Filter(Positive, dataset)|, testFraction);
    CutIsShare(|Filter(Negative, dataset)|, testFraction);
    var positives := Shuffled(Filter(Positive, dataset));
    var negatives := Shuffled(Filter(Negative, dataset));
    var p, n := Cut(|positives|, testFraction), Cut(|negatives|, testFraction);
    train := Shuffled(positives[..p] + negatives[..n]);
    test := Shuffled(positives[p..] + negatives[n..]);
    SplitKeepsAll(dataset, positives, negatives, p, n);
    LabelsKept(dataset, positives, negatives);
    HalfKeeps(positives[..p], negatives[..n], train);
  }

  lemma SplitKeepsAll(dataset: seq<Example>, positives: seq<Example>, negatives: seq<Example>, p: nat, n: nat)
    requires multiset(positives) == multiset(Filter(Positive, dataset)) && p <= |positives|
    requires multiset(negatives) == multiset(Filter(Negative, dataset)) && n <= |negatives|
    ensures multiset(positives[..p] + negatives[..n]) + multiset(positives[p..] + negatives[n..]) == multiset(dataset)
  {
    LabelsPartition(dataset);
    Halves(positives, p);
    Halves(negatives, n);
  }

  lemma Halves(s: seq<Example>, k: nat)
    requires k <= |s|
    ensures multiset(s[..k]) + multiset(s[k..]) == multiset(s)
  {
    assert s == s[..k] + s[k..];
  }

  lemma LabelsKept(dataset: seq<Example>, positives: seq<Example>, negatives: seq<Example>)
    requires multiset(positives) == multiset(Filter(Positive, dataset))
    requires multiset(negatives) == multiset(Filter(Negative, dataset))
    ensures (forall x :: x in positives ==> x.positive) && (forall x :: x in negatives ==> !x.positive)
  {
    forall x | x in positives ensures x.positive {
      assert x in multiset(positives);
      FilterCounts(Positive, dataset, x);
    }
    forall x | x in negatives ensures !x.positive {
      assert x in multiset(negatives);
      FilterCounts(Negative, dataset, x);
    }
  }
}
