/** From a bucket event to the sources that subscribed to it: matching, sorting
    the records of a notification, and dispatching them to each source. */
module EventDispatch {
  import opened Text
  import opened Sequences

  // --- matching ---

  predicate MatchEvent(subscription: string, event: string) {
    var pattern := TrimPrefix(subscription, "s3:");
    if HasSuffix(pattern, "*") then HasPrefix(event, TrimSuffix(pattern, "*"))
    else pattern == event
  }

  /** A trailing star stands for any rest, the empty one included; every other
      character, a star elsewhere included, stands for itself. */
  lemma MatchEventMeaning(core: string, event: string)
    ensures MatchEvent("s3:" + core + "*", event) <==> exists rest: string :: event == core + rest
    ensures core == "" || core[|core| - 1] != '*' ==> (MatchEvent("s3:" + core, event) <==> event == core)
    ensures !("s3:" <= core) ==> (MatchEvent(core, event) <==> MatchEvent("s3:" + core, event))
  {
    var starred := "s3:" + core + "*";
    assert TrimPrefix(starred, "s3:") == core + "*" && TrimSuffix(core + "*", "*") == core;
    assert TrimPrefix("s3:" + core, "s3:") == core;
    if HasPrefix(event, core) {
      assert event == core + event[|core|..];
    }
  }

  // --- records ---

  /** The fields of a record header the adapter looks at; `s3` is the bucket
      name inside the s3 object, if there is one. */
  datatype Header = Header(event: string, eventName: string, bucket: string, s3: Option<string>)

  /** A record of a notification; the header is None when it does not parse. */
  datatype RawRecord = RawRecord(raw: string, header: Option<Header>)

  datatype Record = Record(raw: string, eventName: string, bucket: string)

  predicate IsTest(r: RawRecord) {
    r.header.Some? && r.header.value.event == "s3:TestEvent"
  }

  predicate IsData(r: RawRecord) {
    r.header.Some? && !IsTest(r) && r.header.value.eventName != "" && r.header.value.s3.Some?
  }

  function TestBucket(r: RawRecord): string {
    if r.header.Some? then r.header.value.bucket else ""
  }

  function AsRecord(r: RawRecord): Record {
    if IsData(r) then Record(r.raw, r.header.value.eventName, r.header.value.s3.value) else Record(r.raw, "", "")
  }

  /** A test event is one by its name; any other record with an event name and an s3
      object is data, and keeps its raw text, its event and its bucket; the rest,
      headers that do not parse included, is dropped. */
  lemma KindsOfRecords(raw: string, h: Header)
    ensures var r := RawRecord(raw, Some(h));
            && (IsTest(r) <==> h.event == "s3:TestEvent")
            && (IsTest(r) ==> TestBucket(r) == h.bucket)
            && (IsData(r) <==> h.event != "s3:TestEvent" && h.eventName != "" && h.s3.Some?)
            && (IsData(r) ==> AsRecord(r) == Record(raw, h.eventName, h.s3.value))
    ensures !IsTest(RawRecord(raw, None)) && !IsData(RawRecord(raw, None))
  {
  }

  /** processNotification up to the dispatch: test events in one list, data
      records in the other, both in the order of the notification. */
  method SortRecords(records: seq<RawRecord>) returns (tests: seq<string>, data: seq<Record>)
    ensures tests == Map(TestBucket, Filter(IsTest, records))
    ensures data == Map(AsRecord, Filter(IsData, records))
  {
    tests, data := [], [];
    for i := 0 to |records|
      invariant tests == Map(TestBucket, Filter(IsTest, records[..i]))
      invariant data == Map(AsRecord, Filter(IsData, records[..i]))
    {
      var r := records[i];
      FilterStep(IsTest, records, i);
      FilterStep(IsData, records, i);
      if r.header.None? {
        continue;
      }
      var header := r.header.value;
      if header.event == "s3:TestEvent" {
        tests := tests + [header.bucket];
      } else if header.eventName != "" && header.s3.Some? {
        data := data + [Record(r.raw, header.eventName, header.s3.value)];
      }
    }
    assert records[..|records|] == records;
  }

  // --- dispatch ---

  datatype Spec = Spec(obc: string, events: seq<string>, sink: string)

  datatype Dispatch =
    | ToHttp(uri: string, bucket: string, records: seq<Record>)
    | ToKafka(topic: string, bucket: string, records: seq<Record>)

  predicate Wants(spec: Spec, r: Record) {
    r.bucket == spec.obc && exists p :: p in spec.events && MatchEvent(p, r.eventName)
  }

  /** The records a source would see if it had a subscription of its own. */
  function Selected(spec: Spec, records: seq<Record>): seq<Record> {
    Filter((r: Record) => Wants(spec, r), records)
  }

  function Dispatched(spec: Spec, matched: seq<Record>, hasProducer: bool): seq<Dispatch> {
    if matched == [] then []
    else if !HasPrefix(spec.sink, "kafka:") then [ToHttp(spec.sink, spec.obc, matched)]
    else if hasProducer then [ToKafka(TrimPrefix(spec.sink, "kafka:"), spec.obc, matched)]
    else []
  }

  /** One pass over a source: a record is taken at its first matching pattern, so
      once at most. */
  method MatchRecords(spec: Spec, records: seq<Record>) returns (matched: seq<Record>)
    ensures matched == Selected(spec, records)
  {
    matched := [];
    ghost var wanted := (r: Record) => Wants(spec, r);
    for i := 0 to |records|
      invariant matched == Filter(wanted, records[..i])
    {
      FilterStep(wanted, records, i);
      var r := records[i];
      if r.bucket != spec.obc {
        continue;
      }
      for j := 0 to |spec.events|
        invariant matched == Filter(wanted, records[..i])
        invariant forall k :: 0 <= k < j ==> !MatchEvent(spec.events[k], r.eventName)
      {
        if MatchEvent(spec.events[j], r.eventName) {
          matched := matched + [r];
          break;
        }
      }
    }
    assert records[..|records|] == records;
  }

  /** Every source gets at most one dispatch, made of exactly its own records;
      it gets none if there are no such records, or if its sink is a Kafka topic
      and there is no producer. */
  method DispatchDataEvents(specs: seq<Spec>, records: seq<Record>, hasProducer: bool) returns (sent: seq<Dispatch>)
    ensures sent == Concat(Map((s: Spec) => Dispatched(s, Selected(s, records), hasProducer), specs))
  {
    sent := [];
    ghost var each := (s: Spec) => Dispatched(s, Selected(s, records), hasProducer);
    for i := 0 to |specs|
      invariant sent == Concat(Map(each, specs[..i]))
    {
      assert specs[..i + 1][..i] == specs[..i];
      ConcatSnoc(Map(each, specs[..i]), each(specs[i]));
      var spec := specs[i];
      var matched := MatchRecords(spec, records);
      if |matched| == 0 {
        continue;
      }
      if HasPrefix(spec.sink, "kafka:") {
        var topic := TrimPrefix(spec.sink, "kafka:");
        if !hasProducer {
          continue;
        }
        sent := sent + [ToKafka(topic, spec.obc, matched)];
      } else {
        sent := sent + [ToHttp(spec.sink, spec.obc, matched)];
      }
    }
    assert specs[..|specs|] == specs;
  }

  /** A source gets the records its own patterns match, in their order, each
      exactly once, and nothing if there are none. */
  lemma SelectedMeaning(spec: Spec, records: seq<Record>) returns (at: seq<nat>)
    ensures |at| == |Selected(spec, records)|
    ensures forall i :: 0 <= i < |at| ==> at[i] < |records| && Selected(spec, records)[i] == records[at[i]]
    ensures forall i, j :: 0 <= i < j < |at| ==> at[i] < at[j]
    ensures forall k: nat :: k < |records| ==>
              (k in at <==> records[k].bucket == spec.obc
                            && exists p :: p in spec.events && MatchEvent(p, records[k].eventName))
  {
    at := FilterPicks((r: Record) => Wants(spec, r), records, |records|);
    assert records[..|records|] == records;
  }

  /** What is sent goes to the source's own sink, with all its records: a sink of the
      form `kafka:topic` stands for that topic, if there is a producer, and any other
      one for itself. */
  lemma WhereItGoes(spec: Spec, matched: seq<Record>, hasProducer: bool, topic: string)
    ensures matched == [] ==> Dispatched(spec, matched, hasProducer) == []
    ensures matched != [] && spec.sink == "kafka:" + topic ==>
              Dispatched(spec, matched, hasProducer) == if hasProducer then [ToKafka(topic, spec.obc, matched)] else []
    ensures matched != [] && !("kafka:" <= spec.sink) ==>
              Dispatched(spec, matched, hasProducer) == [ToHttp(spec.sink, spec.obc, matched)]
  {
    assert ("kafka:" + topic)[6..] == topic;
  }

  // --- merged subscriptions ---

  /** An event on a bucket, with the patterns the bucket's notification
      configuration holds at that moment. */
  datatype Emission = Emission(record: Record, configured: set<string>)

  predicate Forwarded(e: Emission) {
    exists p :: p in e.configured && MatchEvent(p, e.record.eventName)
  }

  function RecordOf(e: Emission): Record {
    e.record
  }

  /** What the storage backend sends to the adapter. */
  function Notified(stream: seq<Emission>): seq<Record> {
    Map(RecordOf, Filter(Forwarded, stream))
  }

  /** What a source receives over several notifications. */
  function Received(spec: Spec, batches: seq<seq<Record>>): seq<Record> {
    Concat(Map((batch: seq<Record>) => Selected(spec, batch), batches))
  }

  /** How the backend groups records into notifications does not matter. */
  lemma {:induction false} BatchingIrrelevant(spec: Spec, batches: seq<seq<Record>>)
    ensures Received(spec, batches) == Selected(spec, Concat(batches))
  {
    if batches != [] {
      var n := |batches| - 1;
      BatchingIrrelevant(spec, batches[..n]);
      var select := (batch: seq<Record>) => Selected(spec, batch);
      ConcatSnoc(Map(select, batches[..n]), select(batches[n]));
      ConcatSnoc(batches[..n], batches[n]);
      assert batches[..n] + [batches[n]] == batches;
      FilterAppend((r: Record) => Wants(spec, r), Concat(batches[..n]), batches[n]);
    }
  }

  /** The bucket's configuration contains the source's patterns. */
  predicate CoveredAt(spec: Spec, e: Emission) {
    e.record.bucket == spec.obc ==> forall p :: p in spec.events ==> p in e.configured
  }

  lemma WantedIsForwarded(spec: Spec, e: Emission)
    requires CoveredAt(spec, e) && Wants(spec, e.record)
    ensures Forwarded(e)
  {
    var p :| p in spec.events && MatchEvent(p, e.record.eventName);
    assert p in e.configured;
  }

  /** One merged subscription per bucket, filtered again by the adapter, gives a
      source exactly what a subscription of its own would: as long as the
      configuration covers it, whatever else the configuration holds and however
      the records are grouped. */
  lemma MergeThenFilter(spec: Spec, stream: seq<Emission>, batches: seq<seq<Record>>)
    requires forall i :: 0 <= i < |stream| ==> CoveredAt(spec, stream[i])
    requires Concat(batches) == Notified(stream)
    ensures Received(spec, batches) == Selected(spec, Map(RecordOf, stream))
  {
    BatchingIrrelevant(spec, batches);
    forall i | 0 <= i < |stream| && Wants(spec, RecordOf(stream[i])) ensures Forwarded(stream[i]) {
      WantedIsForwarded(spec, stream[i]);
    }
    FilterTwice((r: Record) => Wants(spec, r), RecordOf, Forwarded, stream);
  }
}
