/** The scorer: per-repository metric records, the fixed-weight linear score
    over a metrics dictionary, and the value-tier ladder. */
module Scoring {

  /** The four metric fields, each with the dictionary key it is stored under. */
  datatype Field = Files | Lines | Links | Refs {
    function Key(): string {
      match this
      case Files => "files"
      case Lines => "lines"
      case Links => "links"
      case Refs => "refs"
    }
  }

  /** One repository's counts. */
  datatype MetricRecord = MetricRecord(files: nat, lines: nat, links: nat, refs: nat) {
    function Get(f: Field): nat {
      match f
      case Files => files
      case Lines => lines
      case Links => links
      case Refs => refs
    }

    /** The record as the dictionary the scorer reads. */
    function AsDict(): (d: map<string, nat>)
      ensures forall f: Field :: f.Key() in d && d[f.Key()] == Get(f)
    {
      map["files" := files, "lines" := lines, "links" := links, "refs" := refs]
    }
  }

  const Zero: MetricRecord := MetricRecord(0, 0, 0, 0)

  /** `metrics.get(key, 0)`: a missing key reads as 0. */
  function Lookup(metrics: map<string, nat>, key: string): nat {
    if key in metrics then metrics[key] else 0
  }

  /** Bank-style score: 2*files + lines//40 + 6*links + 3*refs. */
  function StableScore(metrics: map<string, nat>): nat {
    2 * Lookup(metrics, "files") + Lookup(metrics, "lines") / 40
      + 6 * Lookup(metrics, "links") + 3 * Lookup(metrics, "refs")
  }

  /** On a complete record the score is the weighted sum of its fields, with
      floor division of the line count by 40. */
  lemma StableScoreOfRecord(m: MetricRecord)
    ensures StableScore(m.AsDict()) == 2 * m.files + m.lines / 40 + 6 * m.links + 3 * m.refs
  {
  }

  /** A dictionary with a key missing scores the same as one holding 0 there. */
  lemma StableScoreMissingKey(metrics: map<string, nat>, key: string)
    requires key !in metrics
    ensures StableScore(metrics) == StableScore(metrics[key := 0])
  {
  }

  /** An empty dictionary scores 0. */
  lemma StableScoreEmpty()
    ensures StableScore(map[]) == 0
  {
  }

  /** The score never decreases when any of the four fields it reads grows;
      keys it does not read may differ arbitrarily. */
  lemma StableScoreMonotone(a: map<string, nat>, b: map<string, nat>)
    requires forall f: Field :: Lookup(a, f.Key()) <= Lookup(b, f.Key())
    ensures StableScore(a) <= StableScore(b)
  {
    assert Lookup(a, Files.Key()) <= Lookup(b, Files.Key());
    assert Lookup(a, Lines.Key()) <= Lookup(b, Lines.Key());
    assert Lookup(a, Links.Key()) <= Lookup(b, Links.Key());
    assert Lookup(a, Refs.Key()) <= Lookup(b, Refs.Key());
  }

  /** Field-wise ordering of records. */
  predicate AtMost(a: MetricRecord, b: MetricRecord) {
    forall f: Field :: a.Get(f) <= b.Get(f)
  }

  /** Monotonicity stated on records. */
  lemma RecordScoreMonotone(a: MetricRecord, b: MetricRecord)
    requires AtMost(a, b)
    ensures StableScore(a.AsDict()) <= StableScore(b.AsDict())
  {
    forall f: Field ensures Lookup(a.AsDict(), f.Key()) <= Lookup(b.AsDict(), f.Key()) {
      assert a.Get(f) <= b.Get(f);
    }
    StableScoreMonotone(a.AsDict(), b.AsDict());
  }

  // ---------------------------------------------------------------------
  // The value-tier ladder

  /** Thresholds in increasing order; a score passes the ones it reaches. */
  const Thresholds: seq<int> := [80, 200, 400, 800]

  /** Tier symbols, lightest first: TierSymbols[k] is the tier of a score
      that reaches exactly k thresholds. */
  const TierSymbols: seq<string> := ["•", "🪙", "🧱", "🧱🧱", "🧱🧱🧱"]

  /** How many of `ts` the score reaches. */
  function Reached(score: int, ts: seq<int>): (n: nat)
    ensures n <= |ts|
  {
    if ts == [] then 0
    else (if ts[0] <= score then 1 else 0) + Reached(score, ts[1..])
  }

  /** The tier rank of a score: 0 (lightest) to 4 (densest). */
  function TierRank(score: int): (k: nat)
    ensures k < |TierSymbols|
  {
    Reached(score, Thresholds)
  }

  /** `choose_value_emoji`: first matching (highest) threshold wins. */
  function ChooseValueEmoji(score: int): (r: string)
    ensures r == TierSymbols[TierRank(score)]
  {
    TierRankByBands(score);
    if score >= 800 then "🧱🧱🧱"
    else if score >= 400 then "🧱🧱"
    else if score >= 200 then "🧱"
    else if score >= 80 then "🪙"
    else "•"
  }

  /** The rank counts the thresholds the score reaches, band by band. */
  lemma TierRankByBands(score: int)
    ensures TierRank(score) == if score >= 800 then 4 else if score >= 400 then 3
                               else if score >= 200 then 2 else if score >= 80 then 1 else 0
  {
    var t4: seq<int>, t3: seq<int>, t2: seq<int>, t1: seq<int> := [80, 200, 400, 800], [200, 400, 800], [400, 800], [800];
    assert t4[1..] == t3 && t3[1..] == t2 && t2[1..] == t1 && t1[1..] == [];
    assert Reached(score, t1) == if score >= 800 then 1 else 0;
    assert Reached(score, t2) == (if score >= 400 then 1 else 0) + Reached(score, t1);
    assert Reached(score, t3) == (if score >= 200 then 1 else 0) + Reached(score, t2);
    assert Reached(score, t4) == (if score >= 80 then 1 else 0) + Reached(score, t3);
  }

  /** Reaching more of the thresholds never follows from a lower score. */
  lemma {:induction false} ReachedMonotone(a: int, b: int, ts: seq<int>)
    requires a <= b
    ensures Reached(a, ts) <= Reached(b, ts)
  {
    if ts != [] {
      ReachedMonotone(a, b, ts[1..]);
    }
  }

  /** Higher score, denser value token: the tier never gets lighter. */
  lemma TierMonotone(a: int, b: int)
    requires a <= b
    ensures TierRank(a) <= TierRank(b)
  {
    ReachedMonotone(a, b, Thresholds);
  }

  /** The five bands, each as an if-and-only-if, so exactly one applies. */
  lemma ChooseValueEmojiBands(score: int)
    ensures ChooseValueEmoji(score) == "🧱🧱🧱" <==> score >= 800
    ensures ChooseValueEmoji(score) == "🧱🧱" <==> 400 <= score < 800
    ensures ChooseValueEmoji(score) == "🧱" <==> 200 <= score < 400
    ensures ChooseValueEmoji(score) == "🪙" <==> 80 <= score < 200
    ensures ChooseValueEmoji(score) == "•" <==> score < 80
  {
  }
}
