/**
 * One flush cycle: decide whether the target database must be created, turn
 * the buffered records into points in the order they are written, and leave
 * the record store empty.
 */
module InfluxWriter {
  import opened JsValues
  import opened Records
  import opened Points
  import opened RecordStore

  /** The database is created only when its name is not among the existing ones. */
  function ShouldCreateDatabase(existingNames: seq<string>, name: string): (create: bool)
    ensures create <==> forall i :: 0 <= i < |existingNames| ==> existingNames[i] != name
  {
    name !in existingNames
  }

  /** The writes of the request section: a summary, then one detail point per record. */
  method EmitRequestPoints(data: seq<RequestRecord>) returns (written: seq<Point>)
    ensures written == RequestPoints(data)
  {
    written := [];
    if |data| > 0 {
      written := written + [SummaryPoint(data)];
      for i := 0 to |data|
        invariant written == [SummaryPoint(data)] + DetailPoints(data[..i], |data|)
      {
        DetailPointsAppend(data[..i], [data[i]], |data|);
        assert data[..i + 1] == data[..i] + [data[i]];
        written := written + [DetailPoint(data[i], |data|)];
      }
      assert data[..|data|] == data;
    }
  }

  /** The writes of the custom section: one point per custom object with properties. */
  method EmitCustomPoints(customData: seq<CustomObject>) returns (written: seq<Point>)
    ensures written == CustomPoints(customData)
  {
    written := [];
    for i := 0 to |customData|
      invariant written == CustomPoints(customData[..i])
    {
      CustomPointsAppend(customData[..i], [customData[i]]);
      assert customData[..i + 1] == customData[..i] + [customData[i]];
      assert [customData[i]][1..] == [];
      if |customData[i]| > 0 {
        written := written + [CustomPoint(customData[i])];
      }
    }
    assert customData[..|customData|] == customData;
  }

  /** The writes of the performance section: one point per non-empty performance object. */
  method EmitPerformancePoints(performance: seq<PerformanceSample>) returns (written: seq<Point>)
    ensures written == PerformancePoints(performance)
  {
    written := [];
    for i := 0 to |performance|
      invariant written == PerformancePoints(performance[..i])
    {
      PerformancePointsAppend(performance[..i], [performance[i]]);
      assert performance[..i + 1] == performance[..i] + [performance[i]];
      assert [performance[i]][1..] == [];
      if performance[i].Sample? {
        written := written + [PerformancePoint(performance[i])];
      }
    }
    assert performance[..|performance|] == performance;
  }

  /**
   * Writes the request points (only for a non-empty request buffer), then one
   * point per non-empty custom object, then one point per non-empty
   * performance object, and drains the store. `written` is the sequence of
   * points handed to the database client, in order.
   */
  method WriteToDatabase(store: Store, existingNames: seq<string>, name: string,
                         performance: seq<PerformanceSample>)
    returns (createDatabase: bool, written: seq<Point>)
    modifies store
    ensures createDatabase <==> name !in existingNames
    ensures written == FlushPoints(old(store.data), old(store.customData), performance)
    ensures store.data == [] && store.customData == []
  {
    createDatabase := ShouldCreateDatabase(existingNames, name);
    var data := store.GetData();
    var requestPoints := EmitRequestPoints(data);
    var customData := store.GetCustomData();
    var customPoints := EmitCustomPoints(customData);
    var performancePoints := EmitPerformancePoints(performance);
    written := requestPoints + customPoints + performancePoints;
    store.EmptyAllData();
  }

  /**
   * A record pushed after a flush is not lost and not written twice: the
   * next flush writes exactly its points.
   */
  method PushBetweenFlushes(store: Store, x: RequestRecord, existingNames: seq<string>, name: string)
    returns (first: seq<Point>, second: seq<Point>)
    modifies store
    ensures first == FlushPoints(old(store.data), old(store.customData), [])
    ensures second == FlushPoints([x], [], [])
    ensures store.data == [] && store.customData == []
  {
    var created: bool;
    created, first := WriteToDatabase(store, existingNames, name, []);
    var length := store.PushToData(x);
    created, second := WriteToDatabase(store, existingNames, name, []);
  }

  /** What one flush leaves behind: the points written, the two buffers, and whether it threw. */
  datatype FlushOutcome = FlushOutcome(
    written: seq<Point>,
    data: seq<RequestRecord>,
    customData: seq<CustomObject>,
    threw: bool)

  /**
   * The flush as the two files run together. With records buffered, the
   * request points are written and then the call to the store's missing
   * `emptyData` throws; with none buffered, the call to the missing
   * `getDatabaseMetrics` throws first. Either way no buffer is cleared and
   * neither the custom nor the performance section is reached.
   */
  function FlushAsWritten(data: seq<RequestRecord>, customData: seq<CustomObject>): (r: FlushOutcome)
    ensures r.threw
    ensures r.data == data && r.customData == customData
    ensures r.written == RequestPoints(data)
    ensures |r.written| == if data == [] then 0 else |data| + 1
    ensures forall k :: 0 <= k < |r.written| ==> r.written[k].measurement != CustomMeasurement
  {
    var written := RequestPoints(data);
    assert forall k :: 0 <= k < |written| ==> written[k].measurement != CustomMeasurement by {
      forall k | 0 <= k < |written| ensures written[k].measurement != CustomMeasurement {
        RequestPointsMeasurement(data, k);
      }
    }
    FlushOutcome(written, data, customData, true)
  }

  /**
   * One buffered request and one custom timing object: as written, every
   * flush rewrites the same request and never writes the custom point,
   * while the single-store flush writes the custom point once and drains.
   */
  lemma FlushAsWrittenRepeats()
    ensures var data, custom := [RecordWithCode("200")], [map["timing" := Num(1.0)]];
      var first := FlushAsWritten(data, custom);
      var second := FlushAsWritten(first.data, first.customData);
      && second.written == first.written == RequestPoints(data) != []
      && CustomPoint(custom[0]) !in first.written
      && CustomPoint(custom[0]) in FlushPoints(data, custom, [])
  {
    var data, custom := [RecordWithCode("200")], [map["timing" := Num(1.0)]];
    assert CustomPoint(custom[0]).measurement == CustomMeasurement;
    CustomPointsExact(custom);
    assert CustomPoint(custom[0]) in CustomPoints(custom);
  }
}
