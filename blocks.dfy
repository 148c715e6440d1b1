/** The block builder: aggregates the per-repository records, scores them
    with the intent boost, picks the value tier from the boosted score,
    assembles the block and adds the proof hash over every key but the
    time-carrying token. */
module Blocks {
  import opened Intents
  import opened Scoring
  import opened Json

  // ---------------------------------------------------------------------
  // Aggregation

  /** `sum(x[f] for x in signals)`, added up from the front as `sum` does. */
  function Total(signals: seq<MetricRecord>, f: Field): nat {
    if signals == [] then 0
    else Total(signals[..|signals| - 1], f) + signals[|signals| - 1].Get(f)
  }

  /** The four totals, as the `metrics` record. */
  function Aggregate(signals: seq<MetricRecord>): MetricRecord {
    MetricRecord(Total(signals, Files), Total(signals, Lines),
                 Total(signals, Links), Total(signals, Refs))
  }

  /** Field-wise sum of two records. */
  function Add(a: MetricRecord, b: MetricRecord): MetricRecord {
    MetricRecord(a.files + b.files, a.lines + b.lines, a.links + b.links, a.refs + b.refs)
  }

  /** The total over a concatenation is the sum of the totals. */
  lemma {:induction false} TotalAppend(a: seq<MetricRecord>, b: seq<MetricRecord>, f: Field)
    ensures Total(a + b, f) == Total(a, f) + Total(b, f)
    decreases |b|
  {
    if b == [] {
      assert a + b == a;
    } else {
      var c := a + b;
      assert c[..|c| - 1] == a + b[..|b| - 1];
      assert c[|c| - 1] == b[|b| - 1];
      TotalAppend(a, b[..|b| - 1], f);
    }
  }

  /** No single record exceeds the total. */
  lemma {:induction false} TotalBound(signals: seq<MetricRecord>, f: Field, i: nat)
    requires i < |signals|
    ensures signals[i].Get(f) <= Total(signals, f)
    decreases |signals|
  {
    if i < |signals| - 1 {
      TotalBound(signals[..|signals| - 1], f, i);
    }
  }

  /** Taking the same element out of two equal multisets leaves equal ones. */
  lemma RemoveOne(rest: seq<MetricRecord>, x: MetricRecord, left: seq<MetricRecord>, right: seq<MetricRecord>)
    requires multiset(rest + [x]) == multiset(left + [x] + right)
    ensures multiset(rest) == multiset(left + right)
  {
    assert multiset(rest + [x]) == multiset(rest) + multiset{x};
    assert multiset(left + [x] + right) == multiset(left) + multiset{x} + multiset(right);
    assert multiset(left + right) == multiset(left) + multiset(right);
    assert multiset(rest) == multiset(rest + [x]) - multiset{x};
    assert multiset(left + right) == multiset(left + [x] + right) - multiset{x};
  }

  /** The total with one record placed between two lists. */
  lemma TotalSplit(left: seq<MetricRecord>, x: MetricRecord, right: seq<MetricRecord>, f: Field)
    ensures Total(left + [x] + right, f) == Total(left + right, f) + x.Get(f)
  {
    TotalAppend(left, right, f);
    TotalAppend(left + [x], right, f);
    assert (left + [x])[..|left|] == left;
  }

  /** The totals do not depend on the order of the records. */
  lemma {:induction false} TotalPermutation(a: seq<MetricRecord>, b: seq<MetricRecord>, f: Field)
    requires multiset(a) == multiset(b)
    ensures Total(a, f) == Total(b, f)
    decreases |a|
  {
    if a == [] {
      assert |b| == |multiset(b)| == 0;
    } else {
      var x, rest := a[|a| - 1], a[..|a| - 1];
      assert a == rest + [x];
      assert x in multiset(b);
      var i :| 0 <= i < |b| && b[i] == x;
      var left, right := b[..i], b[i + 1..];
      assert b == left + [x] + right;
      RemoveOne(rest, x, left, right);
      TotalPermutation(rest, left + right, f);
      TotalSplit(left, x, right, f);
    }
  }

  /** An empty list aggregates to all zeros. */
  lemma AggregateEmpty()
    ensures Aggregate([]) == Zero
  {
  }

  /** Aggregating a concatenation adds the two aggregates. */
  lemma AggregateAppend(a: seq<MetricRecord>, b: seq<MetricRecord>)
    ensures Aggregate(a + b) == Add(Aggregate(a), Aggregate(b))
  {
    TotalAppend(a, b, Files);
    TotalAppend(a, b, Lines);
    TotalAppend(a, b, Links);
    TotalAppend(a, b, Refs);
    var x, y := Aggregate(a), Aggregate(b);
    assert Add(x, y) == MetricRecord(x.files + y.files, x.lines + y.lines, x.links + y.links, x.refs + y.refs);
    assert Aggregate(a + b) == MetricRecord(Total(a + b, Files), Total(a + b, Lines),
                                            Total(a + b, Links), Total(a + b, Refs));
  }

  /** One record aggregates to itself. */
  lemma AggregateSingle(x: MetricRecord)
    ensures Aggregate([x]) == x
  {
    assert [x][..0] == [];
    assert Aggregate([x]) == MetricRecord(Total([x], Files), Total([x], Lines),
                                          Total([x], Links), Total([x], Refs));
  }

  /** An all-zero record adds nothing to the totals. */
  lemma AggregateAppendZero(s: seq<MetricRecord>)
    ensures Aggregate(s + [Zero]) == Aggregate(s)
  {
  }

  /** Aggregating the same records in any order gives the same totals. */
  lemma AggregatePermutation(a: seq<MetricRecord>, b: seq<MetricRecord>)
    requires multiset(a) == multiset(b)
    ensures Aggregate(a) == Aggregate(b)
  {
    TotalPermutation(a, b, Files);
    TotalPermutation(a, b, Lines);
    TotalPermutation(a, b, Links);
    TotalPermutation(a, b, Refs);
  }

  /** Every record is bounded field-wise by the aggregate. */
  lemma AggregateBounds(signals: seq<MetricRecord>, i: nat)
    requires i < |signals|
    ensures AtMost(signals[i], Aggregate(signals))
  {
    var agg := Aggregate(signals);
    forall f: Field ensures signals[i].Get(f) <= agg.Get(f) {
      TotalBound(signals, f, i);
      assert agg.Get(f) == Total(signals, f);
    }
  }

  // ---------------------------------------------------------------------
  // Scoring with the intent boost

  /** The score before any intent boost. */
  function BaseScore(signals: seq<MetricRecord>): nat {
    StableScore(Aggregate(signals).AsDict())
  }

  /** The final score: "routes" adds 5 per record, "investigative" adds 2 per
      link, any other intent adds nothing. */
  function FinalScore(intent: string, signals: seq<MetricRecord>): (r: nat)
    ensures r >= BaseScore(signals)
  {
    BaseScore(signals)
      + if intent == "routes" then 5 * |signals|
        else if intent == "investigative" then 2 * Total(signals, Links)
        else 0
  }

  /** The three boost cases, stated on the base score of the aggregate. */
  lemma FinalScoreCases(intent: string, signals: seq<MetricRecord>)
    ensures intent == "routes" ==>
      FinalScore(intent, signals) == BaseScore(signals) + 5 * |signals|
    ensures intent == "investigative" ==>
      FinalScore(intent, signals) == BaseScore(signals) + 2 * Aggregate(signals).links
    ensures intent != "routes" && intent != "investigative" ==>
      FinalScore(intent, signals) == BaseScore(signals)
  {
  }

  /** An empty list scores 0 and gets the lightest tier, whatever the intent. */
  lemma EmptyInput(intent: string)
    ensures Aggregate([]) == Zero
    ensures FinalScore(intent, []) == 0
    ensures ChooseValueEmoji(FinalScore(intent, [])) == "•"
  {
  }

  /** Reordering the records changes neither the score nor the tier. */
  lemma FinalScorePermutation(intent: string, a: seq<MetricRecord>, b: seq<MetricRecord>)
    requires multiset(a) == multiset(b)
    ensures FinalScore(intent, a) == FinalScore(intent, b)
    ensures ChooseValueEmoji(FinalScore(intent, a)) == ChooseValueEmoji(FinalScore(intent, b))
  {
    AggregatePermutation(a, b);
    assert |a| == |multiset(a)| == |multiset(b)| == |b|;
    TotalPermutation(a, b, Links);
  }

  /** Touching one more repository never lowers the score or the tier. */
  lemma FinalScoreGrows(intent: string, signals: seq<MetricRecord>, x: MetricRecord)
    ensures FinalScore(intent, signals) <= FinalScore(intent, signals + [x])
    ensures TierRank(FinalScore(intent, signals)) <= TierRank(FinalScore(intent, signals + [x]))
  {
    AggregateAppend(signals, [x]);
    TotalAppend(signals, [x], Links);
    var before, after := Aggregate(signals), Aggregate(signals + [x]);
    forall f: Field ensures before.Get(f) <= after.Get(f) {
      assert after.Get(f) == before.Get(f) + Aggregate([x]).Get(f);
    }
    RecordScoreMonotone(before, after);
    TierMonotone(FinalScore(intent, signals), FinalScore(intent, signals + [x]));
  }

  /** The tier is taken from the boosted score: one repository with ten
      links scores 60 (tier "•") before the "investigative" boost and 80
      (tier "🪙") after it. */
  lemma TierUsesBoostedScore()
    ensures var signals := [MetricRecord(0, 0, 10, 0)];
      BaseScore(signals) == 60 && ChooseValueEmoji(BaseScore(signals)) == "•" &&
      FinalScore("investigative", signals) == 80 &&
      ChooseValueEmoji(FinalScore("investigative", signals)) == "🪙"
  {
  }

  /** Worked example: totals {files 10, lines 400, links 2, refs 1} score
      45 with no boost and 49 under "investigative", both in tier "•". */
  lemma WorkedExample()
    ensures var r := MetricRecord(10, 400, 2, 1);
      FinalScore("engineering", [r]) == 45 && ChooseValueEmoji(45) == "•" &&
      FinalScore("investigative", [r]) == 49 && ChooseValueEmoji(49) == "•"
  {
  }

  /** The same totals spread over three records score 60 under "routes",
      still tier "•". */
  lemma WorkedExampleRoutes()
    ensures var r := MetricRecord(10, 400, 2, 1);
      FinalScore("routes", [r, Zero, Zero]) == 60 && ChooseValueEmoji(60) == "•"
  {
    var r := MetricRecord(10, 400, 2, 1);
    AggregateSingle(r);
    AggregateAppendZero([r]);
    AggregateAppendZero([r, Zero]);
    assert [r] + [Zero] == [r, Zero] && [r, Zero] + [Zero] == [r, Zero, Zero];
    StableScoreOfRecord(r);
  }

  // ---------------------------------------------------------------------
  // The block

  /** The fixed id tile of every token. */
  const EmojiId: string := "🧱🧱🧱"

  /** The top-level keys of a block. */
  datatype BlockKey =
    | TypeKey | IntentKey | ColorKey | TokenKey
    | MetricsKey | ScoreKey | RepoSignalsKey | ProofKey
  {
    /** The key's name in the block dictionary. */
    function Name(): string {
      match this
      case TypeKey => "type"
      case IntentKey => "intent"
      case ColorKey => "color"
      case TokenKey => "token"
      case MetricsKey => "metrics"
      case ScoreKey => "score"
      case RepoSignalsKey => "repo_signals"
      case ProofKey => "proof_sha256"
    }
  }

  /** A block: the top-level dictionary, keyed by BlockKey. */
  type Block = map<BlockKey, Value>

  /** Distinct keys have distinct names, so a block loses no entry as a
      string-keyed dictionary. */
  lemma NameInjective(a: BlockKey, b: BlockKey)
    requires a.Name() == b.Name()
    ensures a == b
  {
  }

  /** The keys the proof hash covers: every top-level key but "token". */
  const PayloadKeys: set<BlockKey> := {TypeKey, IntentKey, ColorKey, MetricsKey, ScoreKey, RepoSignalsKey}

  /** The token sub-dictionary: id, value tier, type symbol, time. */
  function TokenJson(value: string, typeSymbol: string, time: string): Value {
    JObj(map["id" := JStr(EmojiId), "value" := JStr(value),
             "type" := JStr(typeSymbol), "time" := JStr(time)])
  }

  /** What the proof hash is computed over. It takes no time argument, so two
      builds from the same inputs at different times hash the same payload. */
  function ProofPayload(typeLabel: string, intent: string, signals: seq<MetricRecord>): (r: Block)
    ensures r.Keys == PayloadKeys
  {
    map[TypeKey := JStr(typeLabel), IntentKey := JStr(intent),
        ColorKey := JStr(Classify(intent).color),
        MetricsKey := RecordJson(Aggregate(signals)),
        ScoreKey := JInt(FinalScore(intent, signals)),
        RepoSignalsKey := JArr(SignalsJson(signals))]
  }

  /** The payload's "repo_signals" entry gives back the input list exactly,
      same records in the same order. */
  lemma ProofPayloadKeepsSignals(typeLabel: string, intent: string, signals: seq<MetricRecord>)
    ensures var p := ProofPayload(typeLabel, intent, signals);
      p[RepoSignalsKey].JArr? && SignalsFromJson(p[RepoSignalsKey].items) == Some(signals)
  {
    var p := ProofPayload(typeLabel, intent, signals);
    assert p[RepoSignalsKey] == JArr(SignalsJson(signals));
    SignalsRoundTrip(signals);
  }

  /** The block before its proof hash holds the payload keys and the token;
      dropping the token leaves the same entries without it. */
  lemma DropToken(typeLabel: Value, intent: Value, color: Value, token: Value,
                  metrics: Value, score: Value, signals: Value)
    ensures var m := map[TypeKey := typeLabel, IntentKey := intent, ColorKey := color,
                         TokenKey := token, MetricsKey := metrics, ScoreKey := score,
                         RepoSignalsKey := signals];
      m.Keys == PayloadKeys + {TokenKey} && ProofKey !in m &&
      m - {TokenKey} == map[TypeKey := typeLabel, IntentKey := intent, ColorKey := color,
                            MetricsKey := metrics, ScoreKey := score, RepoSignalsKey := signals]
  {
  }

  /** Adding the proof hash and then dropping it with the token is dropping
      the token alone. */
  lemma DropAdded(m: Block, v: Value)
    requires ProofKey !in m
    ensures m[ProofKey := v] - {TokenKey, ProofKey} == m - {TokenKey}
    ensures m[ProofKey := v].Keys == m.Keys + {ProofKey}
  {
  }

  /** `build_block`. The intent and type labels arrive trimmed and
      lower-cased; `now` is the wall-clock ISO-8601 time; `dumps` and
      `sha256` stand for the canonical serializer and the hex digest, and
      every property below holds whatever they compute. */
  method BuildBlock(intent: string, typeLabel: string, repoSignals: seq<MetricRecord>, now: string,
                    dumps: Block -> string, sha256: string -> string)
    returns (block: Block)
    ensures block.Keys == PayloadKeys + {TokenKey, ProofKey}
    ensures block - {TokenKey, ProofKey} == ProofPayload(typeLabel, intent, repoSignals)
    ensures block[TokenKey] == TokenJson(ChooseValueEmoji(FinalScore(intent, repoSignals)),
                                         Classify(intent).typeSymbol, now)
    ensures block[ProofKey] == JStr(sha256(dumps(ProofPayload(typeLabel, intent, repoSignals))))
  {
    var metrics := Aggregate(repoSignals);
    var score: int := StableScore(metrics.AsDict());
    if intent == "routes" {
      score := score + |repoSignals| * 5;
    }
    if intent == "investigative" {
      score := score + metrics.links * 2;
    }
    assert score == FinalScore(intent, repoSignals);
    var valueEmoji := ChooseValueEmoji(score);
    var style := Classify(intent);
    block := map[
      TypeKey := JStr(typeLabel),
      IntentKey := JStr(intent),
      ColorKey := JStr(style.color),
      TokenKey := TokenJson(valueEmoji, style.typeSymbol, now),
      MetricsKey := RecordJson(metrics),
      ScoreKey := JInt(score),
      RepoSignalsKey := JArr(SignalsJson(repoSignals))
    ];
    DropToken(JStr(typeLabel), JStr(intent), JStr(style.color), TokenJson(valueEmoji, style.typeSymbol, now),
              RecordJson(metrics), JInt(score), JArr(SignalsJson(repoSignals)));
    var payload := block - {TokenKey};
    assert payload == ProofPayload(typeLabel, intent, repoSignals);
    var proof := JStr(sha256(dumps(payload)));
    DropAdded(block, proof);
    block := block[ProofKey := proof];
  }
}
