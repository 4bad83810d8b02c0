/** /score of verdict-engine/app.py and the archive replay of verdict-engine/revalidation_report.py. */
module Replay {
  import opened Options
  import opened Verdicts
  import opened Sequences
  import opened Events

  datatype Request = Request(
    sampleHash: string, source: string, events: seq<Event>, staticMatches: seq<string>, timedOut: bool)

  datatype Opinion = Opinion(verdict: Label, confidence: real, chain: seq<Reason>)

  /** score_events followed by verdict_from_score, of whichever scorer module. */
  type Scorer = seq<Event> -> Opinion

  datatype Method = KnownBadHash | StaticTriage | Dynamic
  datatype Why = HashMatch(name: string) | StaticRules(matches: seq<string>) | SensorTimeout | Scored(chain: seq<Reason>)
  datatype Record = Record(verdict: Label, confidence: real, why: Why, method_: Method, sampleHash: string, source: string)

  /** A line of the event archive. */
  datatype Entry = Entry(
    sampleHash: string, source: string, events: seq<Event>, verdictAtCapture: Label, knownBadMatch: bool, timedOut: bool)

  /** What check_hash answered ("" for no match or an empty label) when a request was scored. */
  datatype Capture = Capture(req: Request, knownBad: string)

  /** The one stage that decided a capture. */
  datatype Stage = ByHash | ByStatic | ByTimeout | ByScorer

  predicate DecidedBy(c: Capture, stage: Stage) {
    match stage
    case ByHash => c.knownBad != ""
    case ByStatic => c.knownBad == "" && c.req.staticMatches != []
    case ByTimeout => c.knownBad == "" && c.req.staticMatches == [] && c.req.timedOut
    case ByScorer => c.knownBad == "" && c.req.staticMatches == [] && !c.req.timedOut
  }

  /** What /score must store for a capture, by the stage that decided it. */
  ghost predicate Explains(c: Capture, scorer: Scorer, r: Record) {
    && r.sampleHash == c.req.sampleHash && r.source == c.req.source
    && (c.knownBad != "" ==>
          r.verdict == Compromised && r.confidence == 1.0 && r.why == HashMatch(c.knownBad) && r.method_ == KnownBadHash)
    && (c.knownBad == "" && c.req.staticMatches != [] ==>
          r.verdict == Compromised && r.confidence == 1.0 && r.why == StaticRules(c.req.staticMatches) && r.method_ == StaticTriage)
    && (c.knownBad == "" && c.req.staticMatches == [] && c.req.timedOut ==>
          r.verdict == Inconclusive && r.confidence == 0.0 && r.why == SensorTimeout && r.method_ == Dynamic)
    && (c.knownBad == "" && c.req.staticMatches == [] && !c.req.timedOut ==>
          var o := scorer(c.req.events);
          r.verdict == o.verdict && r.confidence == o.confidence && r.why == Scored(o.chain) && r.method_ == Dynamic)
  }

  function VerdictOf(c: Capture, scorer: Scorer): Label {
    if DecidedBy(c, ByHash) || DecidedBy(c, ByStatic) then Compromised
    else if DecidedBy(c, ByTimeout) then Inconclusive
    else scorer(c.req.events).verdict
  }

  ghost predicate Archives(e: Entry, c: Capture, scorer: Scorer) {
    && e.sampleHash == c.req.sampleHash && e.source == c.req.source && e.events == c.req.events
    && e.verdictAtCapture == VerdictOf(c, scorer)
    && e.knownBadMatch == (c.knownBad != "") && e.timedOut == c.req.timedOut
  }

  /** The scoring service: its audit records, its event archive and the hashes it proposed. */
  class Service {
    const scorer: Scorer
    var records: seq<Record>
    var archive: seq<Entry>
    var proposed: seq<string>
    ghost var captures: seq<Capture>

    /** Every archive line tells of one scored request, in order. */
    ghost predicate Valid()
      reads this
    {
      |archive| == |captures| && forall i :: 0 <= i < |archive| ==> Archives(archive[i], captures[i], scorer)
    }

    constructor (scorer: Scorer)
      ensures Valid() && this.scorer == scorer && archive == [] && records == [] && proposed == []
    {
      this.scorer := scorer;
      records, archive, proposed, captures := [], [], [], [];
    }

    /** The branches of score(), up to the record. */
    method Judge(req: Request, knownBad: string) returns (record: Record)
      modifies this`proposed
      ensures Explains(Capture(req, knownBad), scorer, record) && record.verdict == VerdictOf(Capture(req, knownBad), scorer)
      ensures var c := Capture(req, knownBad);
        proposed == old(proposed)
          + if DecidedBy(c, ByScorer) && VerdictOf(c, scorer).Compromised? && req.source == "sample" then [req.sampleHash] else []
    {
      var verdict, confidence, why, how;
      if knownBad != "" {
        how := KnownBadHash;
        verdict, confidence, why := Compromised, 1.0, HashMatch(knownBad);
      } else if req.staticMatches != [] {
        how := StaticTriage;
        verdict, confidence, why := Compromised, 1.0, StaticRules(req.staticMatches);
      } else if req.timedOut {
        how := Dynamic;
        verdict, confidence, why := Inconclusive, 0.0, SensorTimeout;
      } else {
        how := Dynamic;
        var o := scorer(req.events);
        verdict, confidence, why := o.verdict, o.confidence, Scored(o.chain);
        if verdict == Compromised && req.source == "sample" {
          proposed := proposed + [req.sampleHash];
        }
      }
      record := Record(verdict, confidence, why, how, req.sampleHash, req.source);
    }

    /** `auditOk` and `archiveOk` say whether the two stores accept the write. A refused audit
        record fails the request; a refused archive line is only logged. */
    method Score(req: Request, knownBad: string, auditOk: bool, archiveOk: bool) returns (answer: Option<Record>)
      requires Valid()
      modifies this
      ensures Valid()
      ensures answer.Some? <==> auditOk
      ensures auditOk ==> Explains(Capture(req, knownBad), scorer, answer.value)
      ensures records == old(records) + if auditOk then [answer.value] else []
      ensures captures == old(captures) + if auditOk && archiveOk then [Capture(req, knownBad)] else []
      ensures archive == old(archive) + if auditOk && archiveOk
        then [Entry(req.sampleHash, req.source, req.events, answer.value.verdict, knownBad != "", req.timedOut)] else []
      ensures proposed == old(proposed)
        + if knownBad == "" && req.staticMatches == [] && !req.timedOut && req.source == "sample"
             && scorer(req.events).verdict == Compromised then [req.sampleHash] else []
    {
      var record := Judge(req, knownBad);
      if !auditOk {
        return None;
      }
      records := records + [record];
      if archiveOk {
        archive := archive + [Entry(req.sampleHash, req.source, req.events, record.verdict, knownBad != "", req.timedOut)];
        captures := captures + [Capture(req, knownBad)];
      }
      return Some(record);
    }
  }

  datatype Outcome =
    | Skipped(before: Label, reason: string)
    | Rescored(before: Label, after: Label, afterConfidence: real, flipped: bool)

  predicate IsSkipped(r: Outcome) { r.Skipped? }
  predicate IsScored(r: Outcome) { !r.Skipped? }
  predicate IsFlip(r: Outcome) { r.Rescored? && r.flipped }

  /** run_archive on one entry. */
  function ReplayEntry(e: Entry, candidate: Scorer): Outcome {
    if e.knownBadMatch || e.timedOut then
      Skipped(e.verdictAtCapture, if e.knownBadMatch then "hash short-circuit, not scored" else "timed out, not scored")
    else
      var o := candidate(e.events);
      Rescored(e.verdictAtCapture, o.verdict, o.confidence, o.verdict != e.verdictAtCapture)
  }

  function ReplayAll(archive: seq<Entry>, candidate: Scorer): (rs: seq<Outcome>)
    ensures |rs| == |archive|
    ensures forall i :: 0 <= i < |rs| ==> rs[i] == ReplayEntry(archive[i], candidate)
  {
    if archive == [] then []
    else
      var last := |archive| - 1;
      ReplayAll(archive[..last], candidate) + [ReplayEntry(archive[last], candidate)]
  }

  method RunArchive(archive: seq<Entry>, candidate: Scorer) returns (results: seq<Outcome>)
    ensures results == ReplayAll(archive, candidate)
  {
    results := [];
    for i := 0 to |archive|
      invariant results == ReplayAll(archive[..i], candidate)
    {
      var entry := archive[i];
      assert archive[..i + 1][..i] == archive[..i];
      if entry.knownBadMatch || entry.timedOut {
        var reason := if entry.knownBadMatch then "hash short-circuit, not scored" else "timed out, not scored";
        results := results + [Skipped(entry.verdictAtCapture, reason)];
        continue;
      }
      var o := candidate(entry.events);
      results := results + [Rescored(entry.verdictAtCapture, o.verdict, o.confidence, o.verdict != entry.verdictAtCapture)];
    }
    assert archive[..|archive|] == archive;
  }

  datatype Report = Report(total: nat, scoredTotal: nat, skippedCount: nat, flippedCount: nat)

  method BuildReport(results: seq<Outcome>) returns (report: Report)
    ensures report.total == |results| == report.scoredTotal + report.skippedCount
    ensures report.scoredTotal == |Filter(IsScored, results)|
    ensures report.skippedCount == |Filter(IsSkipped, results)|
    ensures report.flippedCount == |Filter(IsFlip, results)| <= report.scoredTotal
  {
    var scored := Filter(IsScored, results);
    var skipped := Filter(IsSkipped, results);
    var flips := Filter(IsFlip, scored);
    Partition(results);
    report := Report(|results|, |scored|, |skipped|, |flips|);
  }

  lemma {:induction false} Partition(results: seq<Outcome>)
    ensures |Filter(IsScored, results)| + |Filter(IsSkipped, results)| == |results|
    ensures Filter(IsFlip, Filter(IsScored, results)) == Filter(IsFlip, results)
    ensures |Filter(IsFlip, results)| <= |Filter(IsScored, results)|
  {
    if results != [] {
      var last := |results| - 1;
      Partition(results[..last]);
      FilterConcat(IsFlip, Filter(IsScored, results[..last]), if IsScored(results[last]) then [results[last]] else []);
    }
  }

  /** Which captures the scorer that judged them flips when it replays them: those the static
      rules decided, in time, although their events are not Compromised. */
  predicate Drifts(c: Capture, scorer: Scorer) {
    DecidedBy(c, ByStatic) && !c.req.timedOut && !scorer(c.req.events).verdict.Compromised?
  }

  /** Exactly one stage decides a capture, and it fixes the verdict. */
  lemma OneStageDecides(c: Capture, scorer: Scorer, r: Record)
    requires Explains(c, scorer, r)
    ensures exists stage :: DecidedBy(c, stage)
    ensures forall s, t :: DecidedBy(c, s) && DecidedBy(c, t) ==> s == t
    ensures r.verdict == VerdictOf(c, scorer)
    ensures r.method_.Dynamic? <==> DecidedBy(c, ByTimeout) || DecidedBy(c, ByScorer)
    ensures r.why.HashMatch? <==> DecidedBy(c, ByHash)
    ensures r.why.StaticRules? <==> DecidedBy(c, ByStatic)
    ensures r.why.SensorTimeout? <==> DecidedBy(c, ByTimeout)
    ensures r.why.Scored? <==> DecidedBy(c, ByScorer)
  {
    assert DecidedBy(c, if c.knownBad != "" then ByHash else if c.req.staticMatches != [] then ByStatic
                        else if c.req.timedOut then ByTimeout else ByScorer);
  }

  /** Replaying one archived capture with any candidate: skipped exactly for a hash match or a
      timeout; a capture its own scorer decided flips exactly when the candidate's label
      differs from that scorer's; with the same scorer only Drifts flips. */
  lemma ReplayOne(e: Entry, c: Capture, scorer: Scorer, candidate: Scorer)
    requires Archives(e, c, scorer)
    ensures ReplayEntry(e, candidate).before == VerdictOf(c, scorer)
    ensures IsSkipped(ReplayEntry(e, candidate)) <==> c.knownBad != "" || c.req.timedOut
    ensures match ReplayEntry(e, candidate)
      case Skipped(_, reason) => reason == if c.knownBad != "" then "hash short-circuit, not scored" else "timed out, not scored"
      case Rescored(_, after, confidence, _) =>
        after == candidate(c.req.events).verdict && confidence == candidate(c.req.events).confidence
    ensures DecidedBy(c, ByScorer) ==>
      (IsFlip(ReplayEntry(e, candidate)) <==> candidate(c.req.events).verdict != scorer(c.req.events).verdict)
    ensures IsFlip(ReplayEntry(e, scorer)) <==> Drifts(c, scorer)
  {
  }

  lemma FlipsIfDrifts(e: Entry, c: Capture, scorer: Scorer)
    requires Archives(e, c, scorer)
    ensures IsFlip(ReplayEntry(e, scorer)) <==> Drifts(c, scorer)
    ensures Drifts(c, scorer) ==> DecidedBy(c, ByStatic)
  {
  }

  function DriftsFor(scorer: Scorer): Capture -> bool {
    c => Drifts(c, scorer)
  }

  function Count<T>(p: T -> bool, s: seq<T>): nat {
    |Filter(p, s)|
  }

  /** Replaying a whole archive with the scorer that wrote it counts exactly the drifting captures. */
  lemma {:induction false} SameScorerReplay(archive: seq<Entry>, captures: seq<Capture>, scorer: Scorer)
    requires |archive| == |captures| && forall i :: 0 <= i < |archive| ==> Archives(archive[i], captures[i], scorer)
    ensures Count(IsFlip, ReplayAll(archive, scorer)) == Count(DriftsFor(scorer), captures)
    ensures (forall i :: 0 <= i < |captures| ==> !DecidedBy(captures[i], ByStatic)) ==>
      Count(IsFlip, ReplayAll(archive, scorer)) == 0
  {
    if archive != [] {
      var last := |archive| - 1;
      SameScorerReplay(archive[..last], captures[..last], scorer);
      FlipsIfDrifts(archive[last], captures[last], scorer);
      assert ReplayAll(archive, scorer)[..last] == ReplayAll(archive[..last], scorer);
    }
  }

  /** The whole loop: serve, then report with the same scorer. */
  method Revalidate(service: Service) returns (report: Report)
    requires service.Valid()
    ensures report.total == |service.archive| == report.scoredTotal + report.skippedCount
    ensures report.flippedCount == Count(DriftsFor(service.scorer), service.captures) <= report.scoredTotal
  {
    var results := RunArchive(service.archive, service.scorer);
    SameScorerReplay(service.archive, service.captures, service.scorer);
    report := BuildReport(results);
  }

  /** A drifting capture: a static match whose events look harmless. Its entry carries no skip
      marker, so replay reports a verdict change that never happened. */
  lemma StaticMatchDrifts(scorer: Scorer, e: Entry, match_: string)
    requires scorer([]).verdict == Inconclusive
    requires Archives(e, Capture(Request("h", "sample", [], [match_], false), ""), scorer)
    ensures e.verdictAtCapture == Compromised && IsFlip(ReplayEntry(e, scorer))
  {
  }
}
