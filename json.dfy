/** The block is a JSON-like dictionary; this module gives its value type and
    the encoding of metric records into it, with the decoding that shows the
    encoding loses nothing. */
module Json {
  import opened Scoring

  datatype Option<T> = None | Some(value: T)

  /** A JSON value: the shapes a block holds. */
  datatype Value =
    | JStr(str: string)
    | JInt(num: int)
    | JArr(items: seq<Value>)
    | JObj(fields: map<string, Value>)

  /** A metric record as the dictionary `{files, lines, links, refs}`. */
  function RecordJson(m: MetricRecord): Value {
    JObj(map["files" := JInt(m.files), "lines" := JInt(m.lines),
             "links" := JInt(m.links), "refs" := JInt(m.refs)])
  }

  /** Reads one non-negative integer field of an object. */
  function NatField(fields: map<string, Value>, key: string): Option<nat> {
    if key in fields && fields[key].JInt? && fields[key].num >= 0
    then Some(fields[key].num) else None
  }

  /** Reads a metric record back from its dictionary form. */
  function RecordFromJson(j: Value): Option<MetricRecord> {
    if !j.JObj? then None
    else
      var files, lines := NatField(j.fields, "files"), NatField(j.fields, "lines");
      var links, refs := NatField(j.fields, "links"), NatField(j.fields, "refs");
      if files.Some? && lines.Some? && links.Some? && refs.Some?
      then Some(MetricRecord(files.value, lines.value, links.value, refs.value))
      else None
  }

  /** The list of records, element by element and in order. */
  function SignalsJson(signals: seq<MetricRecord>): (r: seq<Value>)
    ensures |r| == |signals|
    ensures forall i :: 0 <= i < |signals| ==> r[i] == RecordJson(signals[i])
  {
    if signals == [] then []
    else [RecordJson(signals[0])] + SignalsJson(signals[1..])
  }

  /** Reads a list of records back; fails if any element is not one. */
  function SignalsFromJson(items: seq<Value>): Option<seq<MetricRecord>> {
    if items == [] then Some([])
    else
      var head := RecordFromJson(items[0]);
      var tail := SignalsFromJson(items[1..]);
      if head.Some? && tail.Some? then Some([head.value] + tail.value) else None
  }

  /** Decoding a record's dictionary gives the record back. */
  lemma RecordRoundTrip(m: MetricRecord)
    ensures RecordFromJson(RecordJson(m)) == Some(m)
  {
  }

  /** Decoding the stored list gives the input list back, same values in
      the same order. */
  lemma {:induction false} SignalsRoundTrip(signals: seq<MetricRecord>)
    ensures SignalsFromJson(SignalsJson(signals)) == Some(signals)
  {
    if signals != [] {
      var r := SignalsJson(signals);
      assert r[1..] == SignalsJson(signals[1..]);
      SignalsRoundTrip(signals[1..]);
      RecordRoundTrip(signals[0]);
      assert [signals[0]] + signals[1..] == signals;
    }
  }

  /** Hence the stored list determines the input list. */
  lemma SignalsJsonInjective(a: seq<MetricRecord>, b: seq<MetricRecord>)
    requires SignalsJson(a) == SignalsJson(b)
    ensures a == b
  {
    SignalsRoundTrip(a);
    SignalsRoundTrip(b);
  }
}
