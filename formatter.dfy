/**
 The entry formatter: `Log` up to the enqueue, `Format` and `convertToString`
 (gologloki.go:30-125). `FormatEntry` says what entry a record becomes; `BuildEntry`
 builds it the way the source does, map by map and piece by piece.
 */
module Formatter {
  import opened Wrappers
  import opened Decimal
  import opened LokiTypes
  import opened LokiConfig
  import opened Golog

  /**
   `Format`: a non-empty logger name is rewritten to `[name]: ` and put in front of the
   message. Nothing else in the record changes.
   */
  function Format<L>(log: Log<L>): (r: Log<L>)
    ensures r.timestamp == log.timestamp && r.level == log.level
    ensures r.data.fields == log.data.fields && r.data.withName == log.data.withName
    ensures r.data.error == log.data.error
    ensures log.data.name == "" ==> r == log
    ensures log.data.name != "" ==>
      && r.data.name == "[" + log.data.name + "]: "
      && r.message == r.data.name + log.message
      && r.message[|r.data.name|..] == log.message
  {
    if log.data.name == "" then log
    else
      var name := "[" + log.data.name + "]: ";
      log.(message := name + log.message, data := log.data.(name := name))
  }

  /**
   `convertToString`: strings stay as they are, integers of either signedness become their
   decimal text, booleans `true`/`false`, floats the facade's `%f` text; any other type is
   refused.
   */
  function ConvertToString(v: Value, floatText: real -> string): (r: Option<string>)
    ensures r.Some? <==> !v.Other?
    ensures v.Str? ==> r == Some(v.s)
    ensures v.Int? ==> r.Some? && WellFormedInt(r.value) && ParseInt(r.value) == v.i
    ensures v.Uint? ==> r.Some? && AllDigits(r.value) && ParseNat(r.value) == v.u
    ensures v.Bool? ==> r == Some(if v.b then "true" else "false")
    ensures v.Float? ==> r == Some(floatText(v.f))
  {
    match v
    case Str(s) => Some(s)
    case Int(i) => IntRoundTrip(i); Some(IntToDecimal(i))
    case Uint(u) => NatRoundTrip(u); Some(NatToDecimal(u))
    case Float(f) => Some(floatText(f))
    case Bool(b) => Some(if b then "true" else "false")
    case Other(_) => None
  }

  /** A field whose value `convertToString` accepts becomes a label. */
  predicate Promoted(v: Value, floatText: real -> string)
  {
    ConvertToString(v, floatText).Some?
  }

  /** The labels the fields contribute: every accepted field under its own key. */
  function FieldLabels(fields: map<string, Value>, floatText: real -> string): (r: Labels)
    ensures forall k :: k in r <==> k in fields && Promoted(fields[k], floatText)
  {
    map k | k in fields && Promoted(fields[k], floatText) :: ConvertToString(fields[k], floatText).value
  }

  /**
   The `logger_name` label of a formatted record: its (already bracketed) name, when the
   record asks for it and the name is not empty.
   */
  function LoggerName(data: Data): (r: Option<string>)
    ensures r.Some? <==> data.withName && data.name != ""
    ensures r.Some? ==> r.value == data.name
  {
    if data.withName && data.name != "" then Some(data.name) else None
  }

  /**
   The label set of an entry. Precedence, lowest first: static labels, accepted fields,
   `logger_name`, `level`.
   */
  function EntryLabels(
    staticLabels: Labels, fields: map<string, Value>, loggerName: Option<string>, level: string,
    floatText: real -> string): (r: Labels)
    ensures "level" in r && r["level"] == level
    ensures loggerName.Some? ==> "logger_name" in r && r["logger_name"] == loggerName.value
    ensures forall k :: k != "level" && !(loggerName.Some? && k == "logger_name") ==>
      (k in r <==> k in staticLabels || (k in fields && Promoted(fields[k], floatText)))
    ensures forall k :: k in r && k != "level" && !(loggerName.Some? && k == "logger_name") ==>
      r[k] == if k in fields && Promoted(fields[k], floatText)
              then ConvertToString(fields[k], floatText).value
              else staticLabels[k]
  {
    var named := if loggerName.Some? then map["logger_name" := loggerName.value] else map[];
    staticLabels + FieldLabels(fields, floatText) + named + map["level" := level]
  }

  /** The fields left for the JSON tail of the line: those whose key is not a label. */
  function Leftover(fields: map<string, Value>, labels: Labels): (r: map<string, Value>)
  {
    map k | k in fields && k !in labels :: fields[k]
  }

  /**
   A field reaches the JSON tail exactly when it was refused as a label and its key is
   neither a static label, `level`, nor the `logger_name` that was set. In particular no
   promoted field is written twice.
   */
  lemma LeftoverExactly(
    staticLabels: Labels, fields: map<string, Value>, loggerName: Option<string>, level: string,
    floatText: real -> string, k: string)
    ensures var labels := EntryLabels(staticLabels, fields, loggerName, level, floatText);
      k in Leftover(fields, labels) <==>
        && k in fields
        && !Promoted(fields[k], floatText)
        && k !in staticLabels
        && k != "level"
        && !(loggerName.Some? && k == "logger_name")
  {
  }

  /** JSON of the leftover fields, omitted when there are none or the encoding fails. */
  function FieldsJson(leftover: map<string, Value>, marshal: map<string, Value> -> Option<string>): (r: Option<string>)
    ensures leftover == map[] ==> r.None?
    ensures leftover != map[] ==> r == marshal(leftover)
  {
    if leftover == map[] then None else marshal(leftover)
  }

  /** `sep` when something has been written already, nothing otherwise. */
  function Separator(written: string, sep: string): (r: string)
  {
    if written == "" then "" else sep
  }

  /**
   The text line: the message, then `Error: <text>` for an error, then the JSON of the
   leftover fields, each addition preceded by its separator only if the line is not
   empty at that point.
   */
  function Line(message: string, error: Option<string>, json: Option<string>): (line: string)
    ensures message <= line
    ensures error.None? && json.None? ==> line == message
    ensures error.Some? && json.None? ==> line == message + Separator(message, " - ") + "Error: " + error.value
    ensures error.Some? ==>
      message + Separator(message, " - ") + "Error: " + error.value <= line
    ensures json.Some? ==> |json.value| <= |line| && line[|line| - |json.value|..] == json.value
    ensures json.Some? ==>
      var before := line[..|line| - |json.value|];
      before == "" || (|before| >= 3 && before[|before| - 3..] == " | ")
  {
    var text := if error.None? then message
      else message + Separator(message, " - ") + "Error: " + error.value;
    if json.None? then text else text + Separator(text, " | ") + json.value
  }

  /** The JSON tail is appended to the line as it stands without it, behind its separator. */
  lemma LineJsonTail(message: string, error: Option<string>, json: string)
    ensures var text := Line(message, error, None);
      Line(message, error, Some(json)) == text + Separator(text, " | ") + json
  {
  }

  /**
   What `Log` enqueues for a record: nothing when the adapter is disabled or the level is
   filtered out, otherwise the formatted entry.
   */
  function FormatEntry<L>(cfg: LokiConfig<L>, ext: Externals<L>, log: Log<L>): (r: Option<LokiLogEntry>)
    ensures r.None? <==> !cfg.enable || !ext.isEnabled(cfg.level, log.level)
    ensures r.Some? ==>
      && r.value.timestamp == log.timestamp
      && r.value.level == ext.levelString(log.level)
      && "level" in r.value.labels && r.value.labels["level"] == r.value.level
    ensures r.Some? && log.data.name == "" ==> log.message <= r.value.line
    ensures r.Some? && log.data.name != "" ==> "[" + log.data.name + "]: " + log.message <= r.value.line
    ensures r.Some? && log.data.withName && log.data.name != "" ==>
      "logger_name" in r.value.labels && r.value.labels["logger_name"] == "[" + log.data.name + "]: "
  {
    if !cfg.enable || !ext.isEnabled(cfg.level, log.level) then None
    else
      var f := Format(log);
      var level := ext.levelString(f.level);
      var labels := EntryLabels(cfg.labels, f.data.fields, LoggerName(f.data), level, ext.floatText);
      var json := FieldsJson(Leftover(f.data.fields, labels), ext.marshalFields);
      Some(LokiLogEntry(f.timestamp, Line(f.message, f.data.error, json), level, labels))
  }

  /** Copies a label map one key at a time (gologloki.go:43-45). */
  method CopyLabels(source: Labels) returns (labels: Labels)
    ensures labels == source
  {
    labels := map[];
    var todo := source.Keys;
    while todo != {}
      invariant todo <= source.Keys
      invariant labels == source - todo
      decreases |todo|
    {
      var k :| k in todo;
      labels := labels[k := source[k]];
      todo := todo - {k};
    }
  }

  /** Sets a label for every field `convertToString` accepts (gologloki.go:47-53). */
  method AddFieldLabels(labels0: Labels, fields: map<string, Value>, floatText: real -> string)
    returns (labels: Labels)
    ensures labels == labels0 + FieldLabels(fields, floatText)
  {
    labels := labels0;
    var todo := fields.Keys;
    while todo != {}
      invariant todo <= fields.Keys
      invariant labels == labels0 + FieldLabels(fields - todo, floatText)
      decreases |todo|
    {
      var k :| k in todo;
      var converted := ConvertToString(fields[k], floatText);
      if converted.Some? {
        labels := labels[k := converted.value];
      }
      assert fields - (todo - {k}) == (fields - todo)[k := fields[k]];
      FieldLabelsExtend(fields - todo, k, fields[k], floatText);
      todo := todo - {k};
    }
    assert fields - todo == fields;
  }

  lemma FieldLabelsExtend(fields: map<string, Value>, k: string, v: Value, floatText: real -> string)
    requires k !in fields
    ensures FieldLabels(fields[k := v], floatText) ==
      if Promoted(v, floatText) then FieldLabels(fields, floatText)[k := ConvertToString(v, floatText).value]
      else FieldLabels(fields, floatText)
  {
  }

  /** Collects the fields whose key is not a label (gologloki.go:74-79). */
  method CollectLeftover(fields: map<string, Value>, labels: Labels) returns (jsonFields: map<string, Value>)
    ensures jsonFields == Leftover(fields, labels)
  {
    jsonFields := map[];
    var todo := fields.Keys;
    while todo != {}
      invariant todo <= fields.Keys
      invariant jsonFields == Leftover(fields - todo, labels)
      decreases |todo|
    {
      var k :| k in todo;
      if k !in labels {
        jsonFields := jsonFields[k := fields[k]];
      }
      todo := todo - {k};
    }
  }

  /** A single-key assignment is a merge with a one-entry map. */
  lemma AssignIsMerge(m: Labels, k: string, v: string)
    ensures m[k := v] == m + map[k := v]
  {
  }

  /**
   Writes the line into a buffer piece by piece (gologloki.go:61-92): the message, the
   error, then the JSON of the leftover fields.
   */
  method WriteLine(
    message: string, error: Option<string>, jsonFields: map<string, Value>,
    marshal: map<string, Value> -> Option<string>) returns (line: string)
    ensures line == Line(message, error, FieldsJson(jsonFields, marshal))
  {
    line := message;
    if error.Some? {
      if |line| > 0 {
        line := line + " - ";
      }
      line := line + "Error: " + error.value;
    }
    if |jsonFields| > 0 {
      var json := marshal(jsonFields);
      if json.Some? {
        if |line| > 0 {
          line := line + " | ";
        }
        line := line + json.value;
      }
    }
  }

  /**
   `Log` up to the enqueue, step by step as the source does it: the static labels and the
   fields are copied one key at a time, and the line is written piece by piece.
   */
  method BuildEntry<L>(cfg: LokiConfig<L>, ext: Externals<L>, log: Log<L>) returns (r: Option<LokiLogEntry>)
    ensures r == FormatEntry(cfg, ext, log)
  {
    if !cfg.enable || !ext.isEnabled(cfg.level, log.level) {
      return None;
    }
    var f := Format(log);
    var fields := f.data.fields;
    var level := ext.levelString(f.level);

    var labels := CopyLabels(cfg.labels);
    labels := AddFieldLabels(labels, fields, ext.floatText);
    var name := LoggerName(f.data);
    if name.Some? {
      AssignIsMerge(labels, "logger_name", name.value);
      labels := labels["logger_name" := name.value];
    }
    AssignIsMerge(labels, "level", level);
    labels := labels["level" := level];
    assert labels == EntryLabels(cfg.labels, fields, name, level, ext.floatText) by {
      if name.None? {
        assert cfg.labels + FieldLabels(fields, ext.floatText) + map[] == cfg.labels + FieldLabels(fields, ext.floatText);
      }
    }

    var jsonFields := CollectLeftover(fields, labels);
    var line := WriteLine(f.message, f.data.error, jsonFields, ext.marshalFields);
    r := Some(LokiLogEntry(f.timestamp, line, level, labels));
  }
}
