/**
 The stream grouper inside `flush` (gologloki.go:178-211): the buffered entries are
 partitioned by label set, each group becoming one stream whose values keep arrival order.
 The source keys its map by `json.Marshal` of the label map; that encoding sorts the keys
 and is injective on string maps, so two entries share a stream exactly when their label
 maps are equal, which is how the model keys it.
 */
module Grouper {
  import opened Decimal
  import opened LokiTypes

  /** The `[timestamp, line]` pair of an entry, the timestamp as decimal `UnixNano`. */
  function ValueOf(e: LokiLogEntry): (v: StreamValue)
    ensures WellFormedInt(v.0) && ParseInt(v.0) == e.timestamp && v.1 == e.line
  {
    IntRoundTrip(e.timestamp);
    (IntToDecimal(e.timestamp), e.line)
  }

  /** The values of the entries labelled `l`, in arrival order. */
  function StreamValues(entries: seq<LokiLogEntry>, l: Labels): (r: seq<StreamValue>)
    ensures |r| <= |entries|
    decreases |entries|
  {
    if entries == [] then []
    else
      var last := entries[|entries| - 1];
      StreamValues(entries[..|entries| - 1], l) + (if last.labels == l then [ValueOf(last)] else [])
  }

  /** How many entries are labelled `l`. */
  function Count(entries: seq<LokiLogEntry>, l: Labels): (c: nat)
    ensures c <= |entries|
    decreases |entries|
  {
    if entries == [] then 0
    else Count(entries[..|entries| - 1], l) + (if entries[|entries| - 1].labels == l then 1 else 0)
  }

  /** The distinct label sets of the entries. */
  function LabelSets(entries: seq<LokiLogEntry>): (r: set<Labels>)
    ensures forall i :: 0 <= i < |entries| ==> entries[i].labels in r
  {
    set i | 0 <= i < |entries| :: entries[i].labels
  }

  /** The place of entry `i` within its stream: how many same-labelled entries came before it. */
  function Rank(entries: seq<LokiLogEntry>, i: nat): (r: nat)
    requires i < |entries|
    ensures r <= i
  {
    Count(entries[..i], entries[i].labels)
  }

  /** The streams map `flush` builds, keyed by label set. */
  function StreamMap(entries: seq<LokiLogEntry>): (m: map<Labels, LokiStream>)
  {
    map l | l in LabelSets(entries) :: LokiStream(l, StreamValues(entries, l))
  }

  /** The payload of one flush: every stream of the map, in no particular order. */
  function Batch(entries: seq<LokiLogEntry>): (r: LokiPayload)
    ensures |r.streams| == |LabelSets(entries)|
  {
    ValuesCount(StreamMap(entries));
    assert StreamMap(entries).Keys == LabelSets(entries);
    LokiPayload(StreamMap(entries).Values)
  }

  lemma LabelSetsExtend(entries: seq<LokiLogEntry>, e: LokiLogEntry)
    ensures LabelSets(entries + [e]) == LabelSets(entries) + {e.labels}
  {
    var s := entries + [e];
    forall l | l in LabelSets(entries) ensures l in LabelSets(s) {
      var i :| 0 <= i < |entries| && entries[i].labels == l;
      assert s[i].labels == l;
    }
    assert s[|entries|].labels == e.labels;
  }

  /** A stream holds one value per entry carrying its label set. */
  lemma {:induction false} StreamLength(entries: seq<LokiLogEntry>, l: Labels)
    ensures |StreamValues(entries, l)| == Count(entries, l)
    decreases |entries|
  {
    if entries != [] {
      StreamLength(entries[..|entries| - 1], l);
    }
  }

  /** A label set has a non-empty stream exactly when some entry carries it. */
  lemma {:induction false} CountPositive(entries: seq<LokiLogEntry>, l: Labels)
    ensures Count(entries, l) > 0 <==> l in LabelSets(entries)
    decreases |entries|
  {
    if entries != [] {
      var init := entries[..|entries| - 1];
      CountPositive(init, l);
      assert entries == init + [entries[|entries| - 1]];
      LabelSetsExtend(init, entries[|entries| - 1]);
    }
  }

  /** Adding one entry appends its value to its own stream and leaves the others alone. */
  lemma StreamMapExtend(entries: seq<LokiLogEntry>, e: LokiLogEntry)
    ensures StreamMap(entries + [e]) ==
      StreamMap(entries)[e.labels := LokiStream(e.labels,
        (if e.labels in StreamMap(entries) then StreamMap(entries)[e.labels].values else []) + [ValueOf(e)])]
  {
    var s := entries + [e];
    assert s[..|s| - 1] == entries;
    LabelSetsExtend(entries, e);
    var m, m' := StreamMap(entries), StreamMap(s);
    var rhs := m[e.labels := LokiStream(e.labels,
      (if e.labels in m then m[e.labels].values else []) + [ValueOf(e)])];
    assert m'.Keys == rhs.Keys;
    forall l | l in m' ensures m'[l] == rhs[l] {
      assert StreamValues(s, l) == StreamValues(entries, l) + (if e.labels == l then [ValueOf(e)] else []);
      if l == e.labels && l !in m {
        CountPositive(entries, l);
        StreamLength(entries, l);
      }
    }
  }

  /** Entry `i` sits in the stream of its label set, at position `Rank(entries, i)`. */
  lemma {:induction false} EntryPlacement(entries: seq<LokiLogEntry>, i: nat)
    requires i < |entries|
    ensures Rank(entries, i) < |StreamValues(entries, entries[i].labels)|
    ensures StreamValues(entries, entries[i].labels)[Rank(entries, i)] == ValueOf(entries[i])
    decreases |entries|
  {
    var l := entries[i].labels;
    var init := entries[..|entries| - 1];
    StreamLength(entries, l);
    StreamLength(init, l);
    if i == |entries| - 1 {
      assert entries[..i] == init;
    } else {
      assert init[i] == entries[i];
      assert init[..i] == entries[..i];
      EntryPlacement(init, i);
    }
  }

  /** Every value of a stream comes from one entry carrying that label set. */
  lemma {:induction false} SlotOrigin(entries: seq<LokiLogEntry>, l: Labels, k: nat)
    requires k < |StreamValues(entries, l)|
    ensures exists i :: 0 <= i < |entries| && entries[i].labels == l && Rank(entries, i) == k
    decreases |entries|
  {
    var init := entries[..|entries| - 1];
    var last := |entries| - 1;
    StreamLength(init, l);
    if k < |StreamValues(init, l)| {
      SlotOrigin(init, l, k);
      var i :| 0 <= i < |init| && init[i].labels == l && Rank(init, i) == k;
      assert entries[i] == init[i] && entries[..i] == init[..i];
    } else {
      assert entries[last].labels == l && entries[..last] == init;
      StreamLength(init, l);
    }
  }

  lemma {:induction false} CountPrefix(entries: seq<LokiLogEntry>, l: Labels, i: nat, j: nat)
    requires i <= j <= |entries|
    ensures Count(entries[..i], l) <= Count(entries[..j], l)
    ensures i < j && entries[i].labels == l ==> Count(entries[..i], l) < Count(entries[..j], l)
    decreases j - i
  {
    if i < j {
      CountPrefix(entries, l, i, j - 1);
      assert entries[..j][..j - 1] == entries[..j - 1];
      if i == j - 1 {
        assert entries[..j][j - 1] == entries[i];
      }
    }
  }

  /** Two entries of one stream keep their arrival order. */
  lemma ArrivalOrder(entries: seq<LokiLogEntry>, i: nat, j: nat)
    requires i < j < |entries| && entries[i].labels == entries[j].labels
    ensures Rank(entries, i) < Rank(entries, j)
  {
    CountPrefix(entries, entries[i].labels, i, j);
  }

  lemma {:induction false} ValuesCount(m: map<Labels, LokiStream>)
    requires forall l :: l in m ==> m[l].stream == l
    ensures |m.Values| == |m.Keys|
    decreases |m.Keys|
  {
    if m != map[] {
      var l :| l in m;
      var rest := m - {l};
      ValuesCount(rest);
      forall v | v in m.Values ensures v in rest.Values + {m[l]} {
        var k :| k in m && m[k] == v;
        if k != l {
          assert k in rest;
        }
      }
      forall v | v in rest.Values ensures v in m.Values {
        var k :| k in rest && rest[k] == v;
        assert k in m;
      }
      assert m.Values == rest.Values + {m[l]};
      assert m[l] !in rest.Values;
    }
  }

  /**
   The payload has one stream per distinct label set: each stream is labelled by a label
   set of the entries, no two streams share one, and each holds exactly the values of the
   entries carrying it.
   */
  lemma BatchStreams(entries: seq<LokiLogEntry>)
    ensures |Batch(entries).streams| == |LabelSets(entries)|
    ensures forall s :: s in Batch(entries).streams ==>
      && s.stream in LabelSets(entries)
      && s.values == StreamValues(entries, s.stream)
      && |s.values| == Count(entries, s.stream) > 0
    ensures forall l :: l in LabelSets(entries) ==> LokiStream(l, StreamValues(entries, l)) in Batch(entries).streams
    ensures forall s1, s2 :: s1 in Batch(entries).streams && s2 in Batch(entries).streams && s1.stream == s2.stream ==> s1 == s2
  {
    var m := StreamMap(entries);
    ValuesCount(m);
    assert m.Keys == LabelSets(entries);
    forall s | s in Batch(entries).streams
      ensures s.stream in LabelSets(entries) && |s.values| == Count(entries, s.stream) > 0
    {
      var l :| l in m && m[l] == s;
      StreamLength(entries, l);
      CountPositive(entries, l);
    }
    forall l | l in LabelSets(entries) ensures LokiStream(l, StreamValues(entries, l)) in Batch(entries).streams {
      assert m[l] == LokiStream(l, StreamValues(entries, l));
    }
  }

  /**
   Every buffered entry is sent exactly once: its value sits at its rank in the one stream
   of its label set.
   */
  lemma EntryInOneStream(entries: seq<LokiLogEntry>, i: nat)
    requires i < |entries|
    ensures exists s :: s in Batch(entries).streams && s.stream == entries[i].labels
    ensures forall s :: s in Batch(entries).streams && s.stream == entries[i].labels ==>
      Rank(entries, i) < |s.values| && s.values[Rank(entries, i)] == ValueOf(entries[i])
  {
    BatchStreams(entries);
    var l := entries[i].labels;
    assert l in LabelSets(entries);
    assert LokiStream(l, StreamValues(entries, l)) in Batch(entries).streams;
    EntryPlacement(entries, i);
  }

  /** Nothing is sent for an empty buffer. */
  lemma EmptyBatch()
    ensures Batch([]).streams == {}
  {
  }

  /** `flush`'s grouping loops: build the streams map entry by entry, then collect its streams. */
  method GroupIntoStreams(entries: seq<LokiLogEntry>) returns (payload: LokiPayload)
    ensures payload == Batch(entries)
  {
    var streams: map<Labels, LokiStream> := map[];
    var i := 0;
    while i < |entries|
      invariant 0 <= i <= |entries|
      invariant streams == StreamMap(entries[..i])
    {
      var entry := entries[i];
      var stream := if entry.labels in streams then streams[entry.labels] else LokiStream(entry.labels, []);
      stream := stream.(values := stream.values + [ValueOf(entry)]);
      streams := streams[entry.labels := stream];
      StreamMapExtend(entries[..i], entry);
      assert entries[..i + 1] == entries[..i] + [entry];
      i := i + 1;
    }
    assert entries[..i] == entries;

    var collected: set<LokiStream> := {};
    var todo := streams.Keys;
    while todo != {}
      invariant todo <= streams.Keys
      invariant collected == set l | l in streams.Keys - todo :: streams[l]
      decreases |todo|
    {
      var l :| l in todo;
      collected := collected + {streams[l]};
      todo := todo - {l};
    }
    payload := LokiPayload(collected);
  }
}
