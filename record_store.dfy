/**
 * The process-wide record store: the pending request records and the
 * pending custom timing objects, appended to by the request-handling code
 * and drained by the flush.
 */
module RecordStore {
  import opened Records

  class Store {
    /** Pending request records, oldest first. */
    var data: seq<RequestRecord>
    /** Pending custom timing objects, oldest first. */
    var customData: seq<CustomObject>

    /** Both buffers start out empty. */
    constructor ()
      ensures data == [] && customData == []
    {
      data := [];
      customData := [];
    }

    /** Appends a request record and returns the new length of the request buffer. */
    method PushToData(x: RequestRecord) returns (length: nat)
      modifies this
      ensures data == old(data) + [x]
      ensures customData == old(customData)
      ensures length == |old(data)| + 1 == |data|
    {
      data := data + [x];
      length := |data|;
    }

    /** Appends a custom timing object and returns the new length of the custom buffer. */
    method PushCustomData(x: CustomObject) returns (length: nat)
      modifies this
      ensures customData == old(customData) + [x]
      ensures data == old(data)
      ensures length == |old(customData)| + 1 == |customData|
    {
      customData := customData + [x];
      length := |customData|;
    }

    /** Discards everything pending in both buffers. */
    method EmptyAllData()
      modifies this
      ensures data == [] && customData == []
    {
      data := [];
      customData := [];
    }

    /** The pending request records, oldest first. */
    method GetData() returns (d: seq<RequestRecord>)
      ensures d == data
    {
      d := data;
    }

    /** The pending custom timing objects, oldest first. */
    method GetCustomData() returns (d: seq<CustomObject>)
      ensures d == customData
    {
      d := customData;
    }
  }

  /** Draining twice with nothing pushed in between: the second drain finds nothing in either buffer. */
  method DrainTwice(s: Store)
    returns (first: seq<RequestRecord>, firstCustom: seq<CustomObject>,
             second: seq<RequestRecord>, secondCustom: seq<CustomObject>)
    modifies s
    ensures first == old(s.data) && firstCustom == old(s.customData)
    ensures second == [] && secondCustom == []
    ensures s.data == [] && s.customData == []
  {
    first := s.GetData();
    firstCustom := s.GetCustomData();
    s.EmptyAllData();
    second := s.GetData();
    secondCustom := s.GetCustomData();
    s.EmptyAllData();
  }

  /** A record pushed after a drain is all that the next read sees. */
  method PushAfterEmpty(s: Store, x: RequestRecord) returns (d: seq<RequestRecord>, c: seq<CustomObject>)
    modifies s
    ensures d == [x] && c == []
  {
    s.EmptyAllData();
    var length := s.PushToData(x);
    assert length == 1;
    d := s.GetData();
    c := s.GetCustomData();
  }
}
