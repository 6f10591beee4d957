/** The CSV import records (internal/core/domain/csv/csv.go). */
module CsvDomain {

  /** The values sent for one metadata field. */
  type FieldValues = seq<string>

  /** One record per data row of the imported sheet. */
  datatype Record = Record(
    added: bool, id: string, originalName: string, size: string, title: string,
    metadataValues: map<string, FieldValues>)

  /** The record a data row starts as: not yet added, no metadata values. */
  function NewRecord(id: string, originalName: string, size: string, title: string): (r: Record)
    ensures !r.added && r.metadataValues == map[]
    ensures r.id == id && r.originalName == originalName && r.size == size && r.title == title
  {
    Record(false, id, originalName, size, title, map[])
  }

  /** The number of records flagged as added. */
  function CountAdded(records: seq<Record>): (n: nat)
    ensures n <= |records|
  {
    if |records| == 0 then 0
    else CountAdded(records[..|records| - 1]) + (if records[|records| - 1].added then 1 else 0)
  }

  /** One more record adds one to the count exactly when it is flagged as added. */
  lemma CountAddedAppend(records: seq<Record>, r: Record)
    ensures CountAdded(records + [r]) == CountAdded(records) + if r.added then 1 else 0
  {
    assert (records + [r])[..|records|] == records;
  }

  /** The number of records not flagged as added. */
  function CountNotAdded(records: seq<Record>): (n: nat)
    ensures n <= |records|
  {
    if |records| == 0 then 0
    else CountNotAdded(records[..|records| - 1]) + (if records[|records| - 1].added then 0 else 1)
  }

  /** Every record is counted exactly once, as a success or as a failure. */
  lemma {:induction false} CountsPartition(records: seq<Record>)
    ensures CountAdded(records) + CountNotAdded(records) == |records|
  {
    if |records| > 0 {
      CountsPartition(records[..|records| - 1]);
    }
  }
}
