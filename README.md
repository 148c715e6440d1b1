# Intent score blocks, modelled in Dafny

This project models `intent_logic.py`, the scoring core of a repository
"miner". The core takes a list of per-repository metric records (`files`,
`lines`, `links`, `refs`) and an intent label, and builds a score block. The
steps are:

- the **classifier** maps the intent to a display colour and a type symbol
  through a fixed table, with a fallback pair for every other label;
- the **scorer** computes the fixed-weight score
  `2*files + lines//40 + 6*links + 3*refs` over a metrics dictionary (a
  missing key counts as 0). It then maps a score to one of five value tiers
  on a threshold ladder;
- the **block builder** sums the four fields over the records and applies the
  intent boost (`routes`: +5 per record, `investigative`: +2 per link). It
  picks the tier from the boosted score and assembles the block. Last, it
  writes `proof_sha256`, a hash over every top-level key except `token`.

Modules:

- `intents.dfy`, module `Intents`: the intent table (`IntentMap`), the
  fallback (`DefaultStyle`) and `Classify`.
- `scoring.dfy`, module `Scoring`: `MetricRecord` and the metrics dictionary
  it becomes (`AsDict`), `Lookup` (`dict.get(key, 0)`), `StableScore`, and
  the ladder `ChooseValueEmoji`. The ladder is specified against an
  independent rank, `TierRank`, which counts the thresholds a score reaches.
- `json.dfy`, module `Json`: the JSON values a block holds, and the encoding
  of records into dictionaries. A decoder comes with it, to show that the
  encoding loses nothing.
- `blocks.dfy`, module `Blocks`: the four sums (`Total`, `Aggregate`), the
  boosted score (`FinalScore`), the block keys, the proof payload and the
  method `BuildBlock`.

`build_block` works step by step, so it is a method. It reassigns `score`
under the two intent conditions, builds the block dictionary, filters out
`token` to form the payload, and then writes `proof_sha256` into the
dictionary. Its postconditions tie the result to the specification functions
`FinalScore`, `ProofPayload` and `ChooseValueEmoji`. The hash postcondition
says `proof_sha256 == sha256(dumps(ProofPayload(type, intent, records)))`.
`ProofPayload` has no time argument, so two blocks built from the same
inputs at different times carry the same `proof_sha256`. Only their tokens
differ.

Inputs that are I/O or foreign code become parameters:

- the intent and type labels (read from the environment in the source);
- the wall-clock time string `now`;
- the serializer `dumps`, a `Block -> string` function;
- the digest `sha256`, a `string -> string` function.

Every property of `BuildBlock` holds for any serializer and any hash.

## Model

| member | source | states |
|---|---|---|
| `Intents.Classify` | intent_logic.py:13-23 | The lookup is total. Every label gets a pair whose type symbol is two bricks followed by its one-tile colour. A label outside the table gets the default pair. |
| `Intents.ClassifyKnown` | intent_logic.py:13-21 | Each of the seven known intents gets exactly the (colour, type symbol) pair the table lists. |
| `Intents.ClassifyFallback` | intent_logic.py:23 | Every label other than the seven known ones, `""` included, gets ("🟦", "🧱🧱🟦"). |
| `Intents.ClassifyDefaultIff` | intent_logic.py:16-23 | A label gets the default pair if and only if it is `input` or not in the table. |
| `Intents.ClassifyKnownDistinct` | intent_logic.py:13-21 | Two different known intents always get different colours. |
| `Scoring.MetricRecord.AsDict` | intent_logic.py:59 | The metrics dictionary holds each of the four fields under its own key. |
| `Scoring.Lookup` | intent_logic.py:33-36 | `metrics.get(key, 0)`: the stored value when the key is present, 0 otherwise. Its consequences are stated by `StableScoreMissingKey` and `StableScoreEmpty`. |
| `Scoring.StableScore` | intent_logic.py:28-39 | The fixed-weight score over the four keys it reads. `StableScoreOfRecord`, `StableScoreMissingKey`, `StableScoreEmpty` and `StableScoreMonotone` give its properties. |
| `Scoring.StableScoreOfRecord` | intent_logic.py:33-39 | On a full metrics dictionary the score is `2*files + lines/40 + 6*links + 3*refs`, with floor division on `lines`. |
| `Scoring.StableScoreMissingKey` | intent_logic.py:33-36 | A dictionary with a key missing scores the same as one holding 0 under that key. |
| `Scoring.StableScoreEmpty` | intent_logic.py:33-39 | An empty dictionary scores 0. |
| `Scoring.StableScoreMonotone` | intent_logic.py:33-39 | If none of `files`, `lines`, `links`, `refs` decreases, the score does not decrease, whatever the other keys hold. |
| `Scoring.RecordScoreMonotone` | intent_logic.py:33-39 | The same monotonicity, stated on records compared field by field. |
| `Scoring.ChooseValueEmoji` | intent_logic.py:41-50 | The tier symbol is the entry of the ordered list ["•", "🪙", "🧱", "🧱🧱", "🧱🧱🧱"] at the rank given by how many of the thresholds 80, 200, 400, 800 the score reaches. |
| `Scoring.TierMonotone` | intent_logic.py:41-50 | A higher score never gets a lighter tier. |
| `Scoring.ChooseValueEmojiBands` | intent_logic.py:41-50 | Each tier symbol holds if and only if the score is in its band (≥800, 400–799, 200–399, 80–199, <80). Exactly one band applies. |
| `Json.RecordJson` | intent_logic.py:59 | A record as the dictionary `{files, lines, links, refs}`, in which the metrics and each element of `repo_signals` are stored. `RecordRoundTrip` shows it loses nothing. |
| `Json.SignalsJson` | intent_logic.py:84 | The stored list has one entry per record, in order, each the record's dictionary. |
| `Json.RecordRoundTrip` | intent_logic.py:54-57 | Decoding a record's dictionary gives back the record. |
| `Json.SignalsRoundTrip` | intent_logic.py:84 | Decoding the stored list gives back the input list. |
| `Json.SignalsJsonInjective` | intent_logic.py:84 | Different input lists are stored as different lists. |
| `Blocks.Total` | intent_logic.py:54-57 | `sum(x[f] for x in repo_signals)` for one field, added from the front. `TotalBound`, `TotalAppend` and `TotalPermutation` give its properties. |
| `Blocks.Aggregate` | intent_logic.py:54-59 | The metrics dictionary: the four field totals. `AggregateEmpty`, `AggregateAppend`, `AggregateSingle`, `AggregatePermutation` and `AggregateBounds` give its properties. |
| `Blocks.TotalBound` | intent_logic.py:54-57 | No single record's field exceeds the total of that field. |
| `Blocks.TotalAppend` | intent_logic.py:54-57 | The total over two concatenated lists is the sum of their totals. |
| `Blocks.TotalPermutation` | intent_logic.py:54-57 | Lists with the same records in any order have the same totals. |
| `Blocks.AggregateEmpty` | intent_logic.py:54-59 | An empty list aggregates to all zeros. |
| `Blocks.AggregateAppend` | intent_logic.py:54-59 | The aggregate of a concatenation is the field-wise sum of the two aggregates. |
| `Blocks.AggregateSingle` | intent_logic.py:54-59 | A single record aggregates to itself. |
| `Blocks.AggregateAppendZero` | intent_logic.py:54-59 | An all-zero record adds nothing to the totals. |
| `Blocks.AggregatePermutation` | intent_logic.py:54-59 | The aggregated metrics do not depend on the order of the records. |
| `Blocks.AggregateBounds` | intent_logic.py:54-59 | Every record is at most the aggregate, field by field. |
| `Blocks.BaseScore` | intent_logic.py:59-60 | The score of the aggregated metrics before any boost. `FinalScore` is bounded below by it, and `EmptyInput` and the worked examples evaluate it. |
| `Blocks.FinalScore` | intent_logic.py:60-68 | The final score is never below the base score of the aggregate. |
| `Blocks.FinalScoreCases` | intent_logic.py:60-68 | `routes` adds 5 per record. `investigative` adds 2 per aggregated link. Every other intent leaves the base score unchanged. |
| `Blocks.EmptyInput` | intent_logic.py:54-70 | An empty list gives all-zero metrics, score 0 and tier "•" under every intent. |
| `Blocks.FinalScorePermutation` | intent_logic.py:54-70 | Reordering the records changes neither the final score nor the tier. |
| `Blocks.FinalScoreGrows` | intent_logic.py:54-70 | Adding one more record never lowers the final score or its tier rank, under any intent. |
| `Blocks.TierUsesBoostedScore` | intent_logic.py:60-70 | The tier comes from the boosted score. One record with 10 links has base score 60 (tier "•") and `investigative` score 80 (tier "🪙"). |
| `Blocks.WorkedExample` | intent_logic.py:33-70 | Totals {10, 400, 2, 1} score 45 under `engineering` and 49 under `investigative`, both in tier "•". |
| `Blocks.WorkedExampleRoutes` | intent_logic.py:54-70 | The same totals over three records score 60 under `routes`, tier "•". |
| `Blocks.NameInjective` | intent_logic.py:72-85 | The block keys have pairwise distinct names, so a block keyed by `BlockKey` is a faithful string-keyed dictionary. |
| `Blocks.TokenJson` | intent_logic.py:76-81 | The token dictionary holding `id`, `value`, `type` and `time`. `BuildBlock` states that it carries the tier of the boosted score, the intent's type symbol and `now`. |
| `Blocks.ProofPayload` | intent_logic.py:86-87 | The payload has exactly the keys type, intent, color, metrics, score and repo_signals. `token` is not among them. |
| `Blocks.ProofPayloadKeepsSignals` | intent_logic.py:84-87 | The payload's `repo_signals` entry decodes back to the input list, unchanged and in order. |
| `Blocks.BuildBlock` | intent_logic.py:52-89 | The block has exactly the payload keys plus `token` and `proof_sha256`. Without those two keys it equals the proof payload. The token holds the id tile, the tier of the boosted score, the intent's type symbol and `now`. `proof_sha256` is the hash of the serialized payload, which does not depend on `now`. |

## Left out

- Reading `INTENT` and `TYPE` from the environment, with their defaults and the `strip().lower()` (intent_logic.py:5-6): process configuration. Both labels are parameters and arrive already normalised.
- `hashlib.sha256` and the UTF-8 encoding with `errors="ignore"` (intent_logic.py:25-26): a foreign cryptographic call. It is the parameter `sha256`, about which nothing is assumed.
- `json.dumps(..., sort_keys=True)` (intent_logic.py:87): the library serializer's exact bytes are not modelled. It is the parameter `dumps`, applied to the payload dictionary. Dictionaries are modelled as maps, which have no key order, so `sort_keys` needs no modelling.
- The wall-clock read `datetime.now(timezone.utc).isoformat()` and its `+00:00` to `Z` rewrite (intent_logic.py:80): nondeterministic. The time string is the parameter `now`.
- `int(...)` coercion of non-integer values and negative metric values (intent_logic.py:33-36): caller contract violations. The fields are `nat`.
- Records given as dictionaries: a record is modelled as exactly the four fields. A dictionary missing a field, which makes the source raise `KeyError`, is not modelled. Extra keys, which the source would copy into `repo_signals` and the hash, are not modelled either.
- Insertion order of the returned block dictionary: it matters only for display, and the hash input is key-sorted.
- `EMOJI_VALUE` (intent_logic.py:10): defined but never used by the source.
- The empty `__main__` block (intent_logic.py:91-93).
- The code hashes the output of `json.dumps` (intent_logic.py:87), which uses its default separators (a space after `,` and `:`) and ASCII-escapes the emoji. That byte form is not modelled: the serializer is the parameter `dumps`.
