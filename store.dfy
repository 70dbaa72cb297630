/**
 * The persistent store of resolved prices: the BitcoinPrice record, the
 * exact-instant lookup `FirstOrDefault(p => p.Timestamp == instant)`, and
 * append. Records are kept in insertion order.
 */
module Store {

  import opened Wrappers
  import opened Clock

  /** A resolved price; the store's auto-assigned Id is not part of this model. */
  datatype BitcoinPrice = BitcoinPrice(timestamp: DateTime, aggregatedPrice: real)

  predicate Matches(record: BitcoinPrice, instant: DateTime)
  {
    SameInstant(record.timestamp, instant)
  }

  /** The position of the first record stamped with `instant`, if any. */
  function FirstMatch(records: seq<BitcoinPrice>, instant: DateTime): (r: Option<nat>)
    ensures r.Some? ==> r.value < |records| && Matches(records[r.value], instant)
    ensures r.Some? ==> forall j :: 0 <= j < r.value ==> !Matches(records[j], instant)
    ensures r.None? ==> forall j :: 0 <= j < |records| ==> !Matches(records[j], instant)
  {
    if records == [] then None
    else if Matches(records[0], instant) then Some(0)
    else match FirstMatch(records[1..], instant)
      case None => None
      case Some(i) => Some(i + 1)
  }

  /** FirstOrDefault: the first record stamped with exactly `instant`, or none. */
  function FirstOrDefault(records: seq<BitcoinPrice>, instant: DateTime): (r: Option<BitcoinPrice>)
    ensures r.Some? ==> r.value in records && Matches(r.value, instant)
    ensures r.None? <==> forall j :: 0 <= j < |records| ==> !Matches(records[j], instant)
  {
    match FirstMatch(records, instant)
    case None => None
    case Some(i) => Some(records[i])
  }

  /** Appending never changes the answer for an instant that already has a record: the first one wins. */
  lemma {:induction false} FirstOrDefaultStableUnderAppend(records: seq<BitcoinPrice>, record: BitcoinPrice, instant: DateTime)
    requires FirstOrDefault(records, instant).Some?
    ensures FirstOrDefault(records + [record], instant) == FirstOrDefault(records, instant)
  {
    if !Matches(records[0], instant) {
      assert (records + [record])[1..] == records[1..] + [record];
      FirstOrDefaultStableUnderAppend(records[1..], record, instant);
    }
  }

  /** After appending a record, its own instant is found (that record, unless an earlier one has it). */
  lemma {:induction false} AppendedRecordIsFound(records: seq<BitcoinPrice>, record: BitcoinPrice)
    ensures FirstOrDefault(records + [record], record.timestamp)
         == if FirstOrDefault(records, record.timestamp).Some? then FirstOrDefault(records, record.timestamp) else Some(record)
  {
    if records == [] {
    } else if !Matches(records[0], record.timestamp) {
      assert (records + [record])[1..] == records[1..] + [record];
      AppendedRecordIsFound(records[1..], record);
    }
  }

}
