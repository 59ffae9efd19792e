/** Captured log lines, their event ids and the process-wide id counter (eventid.go, push.go). */
module Records {
  import opened Common

  /** An unsigned 64-bit event id. */
  type EventID = n: nat | n < 0x1_0000_0000_0000_0000

  /** One log line. `eventID` is what decoding the line's event_id field yields: None when the line
      does not decode. A line that decodes without the field yields Some(0). */
  datatype Line = Line(text: string, eventID: Option<EventID>)

  /** A line tagged with its position in the log of everything ever captured. */
  datatype Item = Item(index: nat, line: Line)

  function IDOf(l: Line): (id: EventID) {
    match l.eventID
    case Some(id) => id
    case None => 0
  }

  function Lines(items: seq<Item>): (lines: seq<Line>)
    ensures |lines| == |items|
    ensures forall i :: 0 <= i < |items| ==> lines[i] == items[i].line
  {
    seq(|items|, i requires 0 <= i < |items| => items[i].line)
  }

  function MaxID(lines: seq<Line>): (m: EventID)
  {
    if lines == [] then 0 else Max(MaxID(lines[..|lines| - 1]), IDOf(lines[|lines| - 1]))
  }

  lemma {:induction false} MaxIDOfConcat(a: seq<Line>, b: seq<Line>)
    ensures MaxID(a + b) == Max(MaxID(a), MaxID(b))
  {
    if b == [] {
      assert a + b == a;
    } else {
      assert (a + b)[..|a + b| - 1] == a + b[..|b| - 1];
      MaxIDOfConcat(a, b[..|b| - 1]);
    }
  }

  /** m is the highest id that the lines decode to; lines that do not decode, or without an id, count as 0. */
  ghost predicate IsHighestID(lines: seq<Line>, m: EventID) {
    && (forall l :: l in lines && l.eventID.Some? ==> l.eventID.value <= m)
    && (m == 0 || exists l :: l in lines && l.eventID == Some(m))
  }

  /** MaxID is the least upper bound of the ids, and 0 for no ids at all. */
  lemma {:induction false} MaxIDIsMaximum(lines: seq<Line>)
    ensures IsHighestID(lines, MaxID(lines))
    ensures forall l :: l in lines ==> IDOf(l) <= MaxID(lines)
    ensures MaxID(lines) == 0 || exists l :: l in lines && IDOf(l) == MaxID(lines)
  {
    if lines != [] {
      var n := |lines| - 1;
      MaxIDIsMaximum(lines[..n]);
      assert lines == lines[..n] + [lines[n]];
    }
  }

  /** scanMaxEventID: the highest id of a batch of lines; undecodable lines do not count. */
  method ScanMaxEventID(records: seq<Line>) returns (maxID: EventID)
    ensures maxID == MaxID(records) && IsHighestID(records, maxID)
  {
    maxID := 0;
    for i := 0 to |records|
      invariant maxID == MaxID(records[..i])
    {
      assert records[..i + 1][..i] == records[..i];
      var r := records[i];
      if r.eventID == None {
        continue;
      }
      if r.eventID.value > maxID {
        maxID := r.eventID.value;
      }
    }
    assert records[..|records|] == records;
    MaxIDIsMaximum(records);
  }

  /** The shared counter behind NextEventID. */
  class EventCounter {
    var value: EventID

    constructor ()
      ensures value == 0
    {
      value := 0;
    }

    /** Wraps to 0 after the largest 64-bit value, as the atomic counter does. */
    method NextEventID() returns (id: EventID)
      modifies this
      ensures id == value == IDAfter(old(value), 1)
      ensures id == if old(value) == 0xFFFF_FFFF_FFFF_FFFF then 0 else old(value) + 1
    {
      value := (value + 1) % 0x1_0000_0000_0000_0000;
      id := value;
    }
  }

  /** The counter's value after n more ids were handed out. */
  function IDAfter(value: EventID, n: nat): (id: EventID) {
    (value + n) % 0x1_0000_0000_0000_0000
  }

  lemma IDAfterOneMore(value: EventID, n: nat)
    ensures IDAfter(IDAfter(value, n), 1) == IDAfter(value, n + 1)
  {
  }

  /** Ids handed out within one 64-bit cycle of each other are distinct, and ascend until the wrap. */
  lemma IDsAreDistinct(value: EventID, m: nat, n: nat)
    requires m < n < m + 0x1_0000_0000_0000_0000
    ensures IDAfter(value, m) != IDAfter(value, n)
    ensures value + n < 0x1_0000_0000_0000_0000 ==> IDAfter(value, m) < IDAfter(value, n)
  {
  }
}
