/**
 * The points a flush writes to the metrics database, built from the buffered
 * records: one summary point of request counts, one detail point per request
 * record, one point per non-empty custom timing object and one point per
 * non-empty performance object.
 */
module Points {
  import opened Wrappers
  import opened JsValues
  import opened Records

  /** A time-series point: measurement name, tag set and field set. */
  datatype Point = Point(measurement: string, tags: map<string, Value>, fields: map<string, Value>)

  const RequestsMeasurement := "number_of_requests"
  const DetailMeasurement := "multilogger"
  const CustomMeasurement := "databaseMetrics"
  const PerformanceMeasurement := "performance"

  /** The value written in place of a missing tag. */
  const Placeholder := Str(" ")

  // ---------------------------------------------------------------------------
  // Summary point: request counts by status class
  // ---------------------------------------------------------------------------

  /** lodash's startsWith for a one-character target: the code's first character is `digit`. */
  predicate StartsWith(code: string, digit: char)
  {
    |code| > 0 && code[0] == digit
  }

  /** The status code starts with one of the five class digits 1 to 5. */
  predicate HasStatusClass(code: string)
  {
    |code| > 0 && '1' <= code[0] <= '5'
  }

  /** The records whose status code starts with `digit`, in buffer order. */
  function WithPrefix(rs: seq<RequestRecord>, digit: char): (r: seq<RequestRecord>)
    ensures |r| <= |rs|
  {
    if rs == [] then []
    else (if StartsWith(rs[0].statusCode, digit) then [rs[0]] else []) + WithPrefix(rs[1..], digit)
  }

  /** The filter keeps only records of the batch whose status code starts with `digit`. */
  lemma {:induction false} WithPrefixSound(rs: seq<RequestRecord>, digit: char)
    ensures forall x :: x in WithPrefix(rs, digit) ==> x in rs && StartsWith(x.statusCode, digit)
    decreases |rs|
  {
    if rs != [] {
      WithPrefixSound(rs[1..], digit);
    }
  }

  /** The positions of the records whose status code starts with `digit`. */
  ghost function IndicesWithPrefix(rs: seq<RequestRecord>, digit: char): set<int>
  {
    set i | 0 <= i < |rs| && StartsWith(rs[i].statusCode, digit)
  }

  /** The name of the field that counts the status class `digit`. */
  function AmountField(digit: char): string
    requires '1' <= digit <= '5'
  {
    match digit
    case '1' => "amountOf1xx"
    case '2' => "amountOf2xx"
    case '3' => "amountOf3xx"
    case '4' => "amountOf4xx"
    case _ => "amountOf5xx"
  }

  /** The `number_of_requests` point for a non-empty batch. */
  function SummaryPoint(rs: seq<RequestRecord>): (p: Point)
    ensures p.measurement == RequestsMeasurement && p.tags == map[]
  {
    Point(RequestsMeasurement, map[], map[
      "requests" := Num(|rs| as real),
      "amountOf1xx" := Num(|WithPrefix(rs, '1')| as real),
      "amountOf2xx" := Num(|WithPrefix(rs, '2')| as real),
      "amountOf3xx" := Num(|WithPrefix(rs, '3')| as real),
      "amountOf4xx" := Num(|WithPrefix(rs, '4')| as real),
      "amountOf5xx" := Num(|WithPrefix(rs, '5')| as real)])
  }

  /** Filtering distributes over concatenation and keeps the order. */
  lemma {:induction false} WithPrefixAppend(a: seq<RequestRecord>, b: seq<RequestRecord>, digit: char)
    ensures WithPrefix(a + b, digit) == WithPrefix(a, digit) + WithPrefix(b, digit)
    decreases |a|
  {
    if a == [] {
      assert a + b == b;
    } else {
      var head := if StartsWith(a[0].statusCode, digit) then [a[0]] else [];
      assert (a + b)[0] == a[0];
      assert (a + b)[1..] == a[1..] + b;
      WithPrefixAppend(a[1..], b, digit);
      calc {
        WithPrefix(a + b, digit);
        head + WithPrefix(a[1..] + b, digit);
        head + (WithPrefix(a[1..], digit) + WithPrefix(b, digit));
        (head + WithPrefix(a[1..], digit)) + WithPrefix(b, digit);
        WithPrefix(a, digit) + WithPrefix(b, digit);
      }
    }
  }

  /** Appending one record adds its position exactly when its status code matches. */
  lemma IndicesWithPrefixSnoc(init: seq<RequestRecord>, last: RequestRecord, digit: char)
    ensures IndicesWithPrefix(init + [last], digit)
         == IndicesWithPrefix(init, digit) + (if StartsWith(last.statusCode, digit) then {|init|} else {})
  {
    var rs := init + [last];
    assert forall i :: 0 <= i < |init| ==> rs[i] == init[i];
    assert rs[|init|] == last;
  }

  /** The filter keeps exactly the records whose status code starts with `digit`. */
  lemma {:induction false} AmountIsIndexCount(rs: seq<RequestRecord>, digit: char)
    ensures |WithPrefix(rs, digit)| == |IndicesWithPrefix(rs, digit)|
    decreases |rs|
  {
    if rs == [] {
      assert IndicesWithPrefix(rs, digit) == {};
    } else {
      var init, last := rs[..|rs| - 1], rs[|rs| - 1];
      assert rs == init + [last];
      WithPrefixAppend(init, [last], digit);
      assert [last][1..] == [];
      assert |WithPrefix([last], digit)| == if StartsWith(last.statusCode, digit) then 1 else 0;
      AmountIsIndexCount(init, digit);
      IndicesWithPrefixSnoc(init, last, digit);
      assert |init| !in IndicesWithPrefix(init, digit);
    }
  }

  /** The five bucket counts added up. */
  function BucketTotal(rs: seq<RequestRecord>): nat
  {
    |WithPrefix(rs, '1')| + |WithPrefix(rs, '2')| + |WithPrefix(rs, '3')|
      + |WithPrefix(rs, '4')| + |WithPrefix(rs, '5')|
  }

  /**
   * The buckets are disjoint: together they count at most every record once,
   * and they count every record exactly when each status code starts with a
   * class digit.
   */
  lemma {:induction false} BucketsAtMostRequests(rs: seq<RequestRecord>)
    ensures BucketTotal(rs) <= |rs|
    ensures BucketTotal(rs) == |rs| <==> forall i :: 0 <= i < |rs| ==> HasStatusClass(rs[i].statusCode)
    decreases |rs|
  {
    if rs != [] {
      var rest := rs[1..];
      BucketsAtMostRequests(rest);
      var head := if HasStatusClass(rs[0].statusCode) then 1 else 0;
      assert BucketTotal(rs) == head + BucketTotal(rest);
      if BucketTotal(rs) == |rs| {
        forall i | 0 <= i < |rs| ensures HasStatusClass(rs[i].statusCode) {
          if i > 0 {
            assert rs[i] == rest[i - 1];
          }
        }
      }
      if forall i :: 0 <= i < |rs| ==> HasStatusClass(rs[i].statusCode) {
        forall i | 0 <= i < |rest| ensures HasStatusClass(rest[i].statusCode) {
          assert rest[i] == rs[i + 1];
        }
      }
    }
  }

  /** The five `amountOfNxx` fields of the summary point add up to at most its `requests` field. */
  lemma SummaryBucketsAtMostRequests(rs: seq<RequestRecord>)
    ensures var f := SummaryPoint(rs).fields;
      f["amountOf1xx"].n + f["amountOf2xx"].n + f["amountOf3xx"].n + f["amountOf4xx"].n + f["amountOf5xx"].n
        <= f["requests"].n
  {
    BucketsAtMostRequests(rs);
  }

  /** The summary point's `requests` field is the batch size. */
  lemma SummaryRequests(rs: seq<RequestRecord>)
    ensures SummaryPoint(rs).fields["requests"] == Num(|rs| as real)
  {
  }

  /** The summary point's `amountOfNxx` field counts the records whose status code starts with N. */
  lemma SummaryAmount(rs: seq<RequestRecord>, digit: char)
    requires '1' <= digit <= '5'
    ensures SummaryPoint(rs).fields[AmountField(digit)] == Num(|IndicesWithPrefix(rs, digit)| as real)
  {
    AmountIsIndexCount(rs, digit);
  }

  /** A request record built around a status code, for the worked example. */
  function RecordWithCode(code: string): RequestRecord
  {
    RequestRecord(code, Undefined, Undefined, Undefined, Undefined, Undefined, Undefined, Undefined,
      None, Undefined, Undefined, Undefined, Undefined, Undefined, ErrorInfo(Undefined, Undefined),
      MemoryUsage(Undefined, Undefined), Undefined, Undefined)
  }

  /** The summary point has exactly the fields of the `number_of_requests` schema. */
  lemma SummaryPointSchema(rs: seq<RequestRecord>)
    ensures SummaryPoint(rs).fields.Keys
         == {"requests", "amountOf1xx", "amountOf2xx", "amountOf3xx", "amountOf4xx", "amountOf5xx"}
  {
  }

  /** Requests answered 200, 404 and 500: one each in the 2xx, 4xx and 5xx buckets. */
  lemma SummaryExample()
    ensures var p := SummaryPoint([RecordWithCode("200"), RecordWithCode("404"), RecordWithCode("500")]);
      && p.fields["requests"] == Num(3.0)
      && p.fields[AmountField('1')] == Num(0.0)
      && p.fields[AmountField('2')] == Num(1.0)
      && p.fields[AmountField('3')] == Num(0.0)
      && p.fields[AmountField('4')] == Num(1.0)
      && p.fields[AmountField('5')] == Num(1.0)
  {
  }

  // ---------------------------------------------------------------------------
  // Detail points: one `multilogger` point per request record
  // ---------------------------------------------------------------------------

  /** A geolocation tag: the picked value when the location exists and the value is truthy, else the placeholder. */
  function LocationTag(location: Option<Location>, pick: Location -> Value): (v: Value)
    ensures location.Some? && Truthy(pick(location.value)) ==> v == pick(location.value)
    ensures !(location.Some? && Truthy(pick(location.value))) ==> v == Placeholder
  {
    if location.Some? && Truthy(pick(location.value)) then pick(location.value) else Placeholder
  }

  /** An error tag: the JSON text of the value, or the placeholder when serialising yields nothing. */
  function ErrorTag(v: Value): (t: Value)
    ensures v.Undefined? ==> t == Placeholder
    ensures !v.Undefined? ==> t == Json(v)
  {
    Or(Serialize(v), Placeholder)
  }

  /** The `multilogger` point of record `r` in a batch of `total` records. */
  function DetailPoint(r: RequestRecord, total: nat): (p: Point)
    ensures p.measurement == DetailMeasurement
    ensures "requests" in p.fields && p.fields["requests"] == Num(total as real)
  {
    Point(
      DetailMeasurement,
      map[
        "statusCode" := Str(r.statusCode),
        "statusMessage" := r.statusMessage,
        "method" := r.httpMethod,
        "path" := r.path,
        "url" := r.url,
        "ip" := r.ip,
        "osHost" := r.osHost,
        "country" := LocationTag(r.location, (l: Location) => l.country),
        "geohash" := LocationTag(r.location, (l: Location) => l.geohash),
        "client" := r.clientInfo,
        "auth" := r.auth,
        "body" := r.body,
        "query" := r.query,
        "params" := r.params,
        "errorMessage" := ErrorTag(r.errorMessage.errorMessage),
        "errorStack" := ErrorTag(r.errorMessage.errorStack),
        "totalMemory" := r.memoryUsage.total],
      map[
        "responseTime" := r.responseTime,
        "cpuUsage" := r.cpuAverage,
        "memoryUsage" := r.memoryUsage.used,
        "requests" := Num(total as real),
        "host" := r.hostname,
        "ip" := r.ip])
  }

  /** A detail point carries the full tag and field schema of the `multilogger` measurement. */
  lemma DetailPointSchema(r: RequestRecord, total: nat)
    ensures DetailPoint(r, total).tags.Keys
         == {"statusCode", "statusMessage", "method", "path", "url", "ip", "osHost", "country", "geohash",
             "client", "auth", "body", "query", "params", "errorMessage", "errorStack", "totalMemory"}
    ensures DetailPoint(r, total).fields.Keys
         == {"responseTime", "cpuUsage", "memoryUsage", "requests", "host", "ip"}
  {
  }

  /**
   * The placeholder rules of a detail point: the geolocation and error tags
   * are never falsy, they carry the record's value when it is there, and
   * `" "` when it is missing.
   */
  lemma DetailPointTags(r: RequestRecord, total: nat)
    ensures var t := DetailPoint(r, total).tags;
      && "statusCode" in t && "country" in t && "geohash" in t && "errorMessage" in t && "errorStack" in t
      && t["statusCode"] == Str(r.statusCode)
      && Truthy(t["country"]) && Truthy(t["geohash"]) && Truthy(t["errorMessage"]) && Truthy(t["errorStack"])
      && (r.location.Some? && Truthy(r.location.value.country) ==> t["country"] == r.location.value.country)
      && (r.location.Some? && Truthy(r.location.value.geohash) ==> t["geohash"] == r.location.value.geohash)
      && (r.location.None? ==> t["country"] == t["geohash"] == Placeholder)
      && (r.errorMessage.errorMessage.Undefined? <==> t["errorMessage"] == Placeholder)
      && (r.errorMessage.errorStack.Undefined? <==> t["errorStack"] == Placeholder)
  {
  }

  /** The detail points of `rs`, in buffer order, each stamped with the batch size `total`. */
  function DetailPoints(rs: seq<RequestRecord>, total: nat): (ps: seq<Point>)
    ensures |ps| == |rs|
  {
    if rs == [] then [] else [DetailPoint(rs[0], total)] + DetailPoints(rs[1..], total)
  }

  lemma {:induction false} DetailPointsAppend(a: seq<RequestRecord>, b: seq<RequestRecord>, total: nat)
    ensures DetailPoints(a + b, total) == DetailPoints(a, total) + DetailPoints(b, total)
    decreases |a|
  {
    if a == [] {
      assert a + b == b;
    } else {
      assert (a + b)[0] == a[0];
      assert (a + b)[1..] == a[1..] + b;
      DetailPointsAppend(a[1..], b, total);
    }
  }

  /** The k-th detail point belongs to the k-th record. */
  lemma {:induction false} DetailPointsAt(rs: seq<RequestRecord>, total: nat, k: nat)
    requires k < |rs|
    ensures DetailPoints(rs, total)[k] == DetailPoint(rs[k], total)
    decreases k
  {
    if k > 0 {
      DetailPointsAt(rs[1..], total, k - 1);
    }
  }

  // ---------------------------------------------------------------------------
  // Custom timing points
  // ---------------------------------------------------------------------------

  /** The `databaseMetrics` point of a custom object: the object as tags, its timing as field. */
  function CustomPoint(o: CustomObject): (p: Point)
    ensures p.measurement == CustomMeasurement && p.tags == o
    ensures p.fields.Keys == {"timing"}
    ensures "timing" in o ==> p.fields["timing"] == o["timing"]
    ensures "timing" !in o ==> p.fields["timing"].Undefined?
  {
    Point(CustomMeasurement, o, map["timing" := Property(o, "timing")])
  }

  /** The custom points of `cs`, in buffer order, skipping objects without properties. */
  function CustomPoints(cs: seq<CustomObject>): (ps: seq<Point>)
    ensures |ps| <= |cs|
  {
    if cs == [] then []
    else (if |cs[0]| > 0 then [CustomPoint(cs[0])] else []) + CustomPoints(cs[1..])
  }

  lemma {:induction false} CustomPointsAppend(a: seq<CustomObject>, b: seq<CustomObject>)
    ensures CustomPoints(a + b) == CustomPoints(a) + CustomPoints(b)
    decreases |a|
  {
    if a == [] {
      assert a + b == b;
    } else {
      assert (a + b)[0] == a[0];
      assert (a + b)[1..] == a[1..] + b;
      CustomPointsAppend(a[1..], b);
    }
  }

  /** Every non-empty custom object yields its point, and every point comes from one. */
  lemma {:induction false} CustomPointsExact(cs: seq<CustomObject>)
    ensures forall o :: o in cs && |o| > 0 ==> CustomPoint(o) in CustomPoints(cs)
    ensures forall p :: p in CustomPoints(cs) ==> exists o :: o in cs && |o| > 0 && p == CustomPoint(o)
    ensures CustomPoints(cs) == [] <==> forall o :: o in cs ==> |o| == 0
    decreases |cs|
  {
    if cs != [] {
      CustomPointsExact(cs[1..]);
      assert forall o :: o in cs ==> o == cs[0] || o in cs[1..];
      forall p | p in CustomPoints(cs) ensures exists o :: o in cs && |o| > 0 && p == CustomPoint(o) {
        if |cs[0]| > 0 && p == CustomPoint(cs[0]) {
        } else {
          assert p in CustomPoints(cs[1..]);
          var o :| o in cs[1..] && |o| > 0 && p == CustomPoint(o);
          assert o in cs;
        }
      }
    }
  }

  // ---------------------------------------------------------------------------
  // Performance points
  // ---------------------------------------------------------------------------

  /** The `performance` point of a non-empty performance object; falsy values fall back to `" "` or 0. */
  function PerformancePoint(s: PerformanceSample): (p: Point)
    requires s.Sample?
    ensures p.measurement == PerformanceMeasurement
    ensures p.tags.Keys == {"osHost", "memoryTotal"}
    ensures p.fields.Keys == {"cpuLoad", "memoryUsage", "memoryFree"}
    ensures p.tags["osHost"] == (if Truthy(s.hostname) then s.hostname else Placeholder)
    ensures p.tags["memoryTotal"] == (if Truthy(s.memoryTotal) then s.memoryTotal else Num(0.0))
    ensures p.fields["cpuLoad"] == (if Truthy(s.cpuLoadSystem) then s.cpuLoadSystem else Num(0.0))
    ensures p.fields["memoryUsage"] == (if Truthy(s.memoryUsed) then s.memoryUsed else Num(0.0))
    ensures p.fields["memoryFree"] == (if Truthy(s.memoryFree) then s.memoryFree else Num(0.0))
  {
    Point(
      PerformanceMeasurement,
      map["osHost" := Or(s.hostname, Placeholder), "memoryTotal" := Or(s.memoryTotal, Num(0.0))],
      map[
        "cpuLoad" := Or(s.cpuLoadSystem, Num(0.0)),
        "memoryUsage" := Or(s.memoryUsed, Num(0.0)),
        "memoryFree" := Or(s.memoryFree, Num(0.0))])
  }

  /** The performance points of `ss`, in order, skipping empty objects. */
  function PerformancePoints(ss: seq<PerformanceSample>): (ps: seq<Point>)
    ensures |ps| <= |ss|
  {
    if ss == [] then []
    else (if ss[0].Sample? then [PerformancePoint(ss[0])] else []) + PerformancePoints(ss[1..])
  }

  lemma {:induction false} PerformancePointsAppend(a: seq<PerformanceSample>, b: seq<PerformanceSample>)
    ensures PerformancePoints(a + b) == PerformancePoints(a) + PerformancePoints(b)
    decreases |a|
  {
    if a == [] {
      assert a + b == b;
    } else {
      assert (a + b)[0] == a[0];
      assert (a + b)[1..] == a[1..] + b;
      PerformancePointsAppend(a[1..], b);
    }
  }

  /** No performance point carries an undefined or null value: every default is filled in. */
  lemma {:induction false} PerformancePointsDefined(ss: seq<PerformanceSample>)
    ensures forall p, k :: p in PerformancePoints(ss) && k in p.tags ==> !p.tags[k].Undefined? && !p.tags[k].Null?
    ensures forall p, k :: p in PerformancePoints(ss) && k in p.fields ==> !p.fields[k].Undefined? && !p.fields[k].Null?
    decreases |ss|
  {
    if ss != [] {
      PerformancePointsDefined(ss[1..]);
    }
  }

  /**
   * Exactly the non-empty performance objects yield a point: each one's
   * point is written, every point comes from one, and there are none iff
   * every object is empty.
   */
  lemma {:induction false} PerformancePointsExact(ss: seq<PerformanceSample>)
    ensures forall s :: s in ss && s.Sample? ==> PerformancePoint(s) in PerformancePoints(ss)
    ensures forall p :: p in PerformancePoints(ss) ==> exists s :: s in ss && s.Sample? && p == PerformancePoint(s)
    ensures PerformancePoints(ss) == [] <==> forall s :: s in ss ==> s.EmptySample?
    decreases |ss|
  {
    if ss != [] {
      PerformancePointsExact(ss[1..]);
      assert forall s :: s in ss ==> s == ss[0] || s in ss[1..];
      forall p | p in PerformancePoints(ss) ensures exists s :: s in ss && s.Sample? && p == PerformancePoint(s) {
        if ss[0].Sample? && p == PerformancePoint(ss[0]) {
        } else {
          assert p in PerformancePoints(ss[1..]);
          var s :| s in ss[1..] && s.Sample? && p == PerformancePoint(s);
          assert s in ss;
        }
      }
    }
  }

  /** The k-th request point is the summary (k = 0) or a detail point. */
  lemma RequestPointsMeasurement(rs: seq<RequestRecord>, k: nat)
    requires k < |RequestPoints(rs)|
    ensures RequestPoints(rs)[k].measurement == (if k == 0 then RequestsMeasurement else DetailMeasurement)
  {
    if k > 0 {
      DetailPointsAt(rs, |rs|, k - 1);
    }
  }

  // ---------------------------------------------------------------------------
  // One flush cycle
  // ---------------------------------------------------------------------------

  /** The request points: a summary and one detail point per record, or nothing for an empty buffer. */
  function RequestPoints(rs: seq<RequestRecord>): (ps: seq<Point>)
    ensures |ps| == if rs == [] then 0 else |rs| + 1
  {
    if |rs| > 0 then [SummaryPoint(rs)] + DetailPoints(rs, |rs|) else []
  }

  /** Every point one flush emits, in the order it emits them. */
  function FlushPoints(rs: seq<RequestRecord>, cs: seq<CustomObject>, ss: seq<PerformanceSample>): seq<Point>
  {
    RequestPoints(rs) + CustomPoints(cs) + PerformancePoints(ss)
  }

  /** The number of points of measurement `m` in `ps`. */
  function CountMeasurement(ps: seq<Point>, m: string): (n: nat)
    ensures n <= |ps|
  {
    if ps == [] then 0 else (if ps[0].measurement == m then 1 else 0) + CountMeasurement(ps[1..], m)
  }

  lemma {:induction false} CountMeasurementAppend(a: seq<Point>, b: seq<Point>, m: string)
    ensures CountMeasurement(a + b, m) == CountMeasurement(a, m) + CountMeasurement(b, m)
    decreases |a|
  {
    if a == [] {
      assert a + b == b;
    } else {
      assert (a + b)[0] == a[0];
      assert (a + b)[1..] == a[1..] + b;
      CountMeasurementAppend(a[1..], b, m);
    }
  }

  lemma {:induction false} DetailPointsMeasurements(rs: seq<RequestRecord>, total: nat)
    ensures CountMeasurement(DetailPoints(rs, total), DetailMeasurement) == |rs|
    ensures CountMeasurement(DetailPoints(rs, total), RequestsMeasurement) == 0
    decreases |rs|
  {
    if rs != [] {
      DetailPointsMeasurements(rs[1..], total);
    }
  }

  lemma {:induction false} CustomPointsMeasurements(cs: seq<CustomObject>)
    ensures CountMeasurement(CustomPoints(cs), DetailMeasurement) == 0
    ensures CountMeasurement(CustomPoints(cs), RequestsMeasurement) == 0
    decreases |cs|
  {
    if cs != [] {
      CustomPointsMeasurements(cs[1..]);
      var head := if |cs[0]| > 0 then [CustomPoint(cs[0])] else [];
      CountMeasurementAppend(head, CustomPoints(cs[1..]), DetailMeasurement);
      CountMeasurementAppend(head, CustomPoints(cs[1..]), RequestsMeasurement);
      assert CustomMeasurement[0] != DetailMeasurement[0] && CustomMeasurement[0] != RequestsMeasurement[0];
    }
  }

  lemma {:induction false} PerformancePointsMeasurements(ss: seq<PerformanceSample>)
    ensures CountMeasurement(PerformancePoints(ss), DetailMeasurement) == 0
    ensures CountMeasurement(PerformancePoints(ss), RequestsMeasurement) == 0
    decreases |ss|
  {
    if ss != [] {
      PerformancePointsMeasurements(ss[1..]);
      var head := if ss[0].Sample? then [PerformancePoint(ss[0])] else [];
      CountMeasurementAppend(head, PerformancePoints(ss[1..]), DetailMeasurement);
      CountMeasurementAppend(head, PerformancePoints(ss[1..]), RequestsMeasurement);
      assert PerformanceMeasurement[0] != DetailMeasurement[0] && PerformanceMeasurement[0] != RequestsMeasurement[0];
    }
  }

  /**
   * A flush emits one `number_of_requests` point exactly when the request
   * buffer is non-empty, and exactly one `multilogger` point per record.
   */
  lemma FlushPointCounts(rs: seq<RequestRecord>, cs: seq<CustomObject>, ss: seq<PerformanceSample>)
    ensures CountMeasurement(FlushPoints(rs, cs, ss), RequestsMeasurement) == if rs == [] then 0 else 1
    ensures CountMeasurement(FlushPoints(rs, cs, ss), DetailMeasurement) == |rs|
  {
    var req, cus, perf := RequestPoints(rs), CustomPoints(cs), PerformancePoints(ss);
    CountMeasurementAppend(req + cus, perf, RequestsMeasurement);
    CountMeasurementAppend(req + cus, perf, DetailMeasurement);
    CountMeasurementAppend(req, cus, RequestsMeasurement);
    CountMeasurementAppend(req, cus, DetailMeasurement);
    CustomPointsMeasurements(cs);
    PerformancePointsMeasurements(ss);
    if rs != [] {
      var details := DetailPoints(rs, |rs|);
      CountMeasurementAppend([SummaryPoint(rs)], details, RequestsMeasurement);
      CountMeasurementAppend([SummaryPoint(rs)], details, DetailMeasurement);
      DetailPointsMeasurements(rs, |rs|);
      assert [SummaryPoint(rs)][1..] == [];
    }
  }

  /** The detail points of a flush are the records' points, in buffer order, after the summary. */
  lemma FlushDetailOrder(rs: seq<RequestRecord>, cs: seq<CustomObject>, ss: seq<PerformanceSample>, k: nat)
    requires k < |rs|
    ensures FlushPoints(rs, cs, ss)[0] == SummaryPoint(rs)
    ensures FlushPoints(rs, cs, ss)[k + 1] == DetailPoint(rs[k], |rs|)
  {
    DetailPointsAt(rs, |rs|, k);
  }
}
