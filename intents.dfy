/** The classifier: an intent label selects a display colour and a composite
    type symbol from a fixed table; any other label gets a default pair. */
module Intents {

  /** The (color, type-symbol) pair an intent label selects. */
  datatype IntentStyle = IntentStyle(color: string, typeSymbol: string)

  /** The brick tile that prefixes every type symbol. */
  const Brick: string := "🧱"

  /** The fixed intent table, keyed by trimmed, lower-cased label. */
  const IntentMap: map<string, IntentStyle> := map[
    "engineering"   := IntentStyle("🟩", "🧱🧱🟩"),
    "ceo"           := IntentStyle("🟧", "🧱🧱🟧"),
    "input"         := IntentStyle("🟦", "🧱🧱🟦"),
    "routes"        := IntentStyle("🟥", "🧱🧱🟥"),
    "assimilation"  := IntentStyle("🟪", "🧱🧱🟪"),
    "extract"       := IntentStyle("🟨", "🧱🧱🟨"),
    "investigative" := IntentStyle("🩷", "🧱🧱🩷")
  ]

  /** The pair every label outside the table falls back to. */
  const DefaultStyle: IntentStyle := IntentStyle("🟦", "🧱🧱🟦")

  /** A well-formed style: one colour tile, and a type symbol that is two
      bricks followed by that same colour. */
  predicate WellFormed(s: IntentStyle) {
    |s.color| == 1 && s.typeSymbol == Brick + Brick + s.color
  }

  /** Lookup with fallback; total over all labels, the empty one included. */
  function Classify(intent: string): (r: IntentStyle)
    ensures WellFormed(r)
    ensures r == DefaultStyle || intent in IntentMap
  {
    if intent in IntentMap then IntentMap[intent] else DefaultStyle
  }

  /** Each of the seven known labels gets the pair the table lists. */
  lemma ClassifyKnown()
    ensures Classify("engineering") == IntentStyle("🟩", "🧱🧱🟩")
    ensures Classify("ceo") == IntentStyle("🟧", "🧱🧱🟧")
    ensures Classify("input") == IntentStyle("🟦", "🧱🧱🟦")
    ensures Classify("routes") == IntentStyle("🟥", "🧱🧱🟥")
    ensures Classify("assimilation") == IntentStyle("🟪", "🧱🧱🟪")
    ensures Classify("extract") == IntentStyle("🟨", "🧱🧱🟨")
    ensures Classify("investigative") == IntentStyle("🩷", "🧱🧱🩷")
  {
  }

  /** Every label other than the seven known ones, "" included, gets the
      default pair. */
  lemma ClassifyFallback(intent: string)
    requires intent !in {"engineering", "ceo", "input", "routes",
                         "assimilation", "extract", "investigative"}
    ensures Classify(intent) == IntentStyle("🟦", "🧱🧱🟦")
  {
  }

  /** The default pair is exactly what "input" and the unknown labels get:
      no other known intent collides with it. */
  lemma ClassifyDefaultIff(intent: string)
    ensures Classify(intent) == DefaultStyle <==> intent == "input" || intent !in IntentMap
  {
  }

  /** Distinct known intents are told apart by their colour. */
  lemma ClassifyKnownDistinct(a: string, b: string)
    requires a in IntentMap && b in IntentMap && a != b
    ensures Classify(a).color != Classify(b).color
  {
  }
}
