/**
 * utils/utils.go and utils/validate.go: reconciling an imported sheet with a
 * metadata view, the scan helpers, and the filename check over collection
 * objects.
 */
module Utils {
  import opened Wrappers
  import opened IconikioTypes
  import CollectionsDomain
  import CsvDomain
  import opened AssetLookup

  /** The fixed start of the machine-names row: five entries, "size" twice. */
  const NamePrefix: seq<string> := ["id", "original_name", "size", "title", "size"]

  /** The fixed start of the labels row: three entries, no "size". */
  const LabelPrefix: seq<string> := ["id", "original_name", "title"]

  /** The first view field whose label equals `wanted`, if any. */
  function FieldFor(fields: seq<ViewField>, wanted: string): (r: Option<ViewField>)
  {
    if |fields| == 0 then None
    else if fields[0].labelText == wanted then Some(fields[0])
    else FieldFor(fields[1..], wanted)
  }

  /** The view fields matched by the headers at indices 4 .. i-1, in column order. */
  function MatchedFields(headers: seq<string>, fields: seq<ViewField>, i: nat): seq<ViewField>
    requires i <= |headers|
  {
    if i <= 4 then []
    else match FieldFor(fields, headers[i - 1])
      case Some(f) => MatchedFields(headers, fields, i - 1) + [f]
      case None => MatchedFields(headers, fields, i - 1)
  }

  /** The headers at indices 4 .. i-1 that no view field carries as its label, in column order. */
  function Unmatched(headers: seq<string>, fields: seq<ViewField>, i: nat): seq<string>
    requires i <= |headers|
  {
    if i <= 4 then []
    else match FieldFor(fields, headers[i - 1])
      case Some(_) => Unmatched(headers, fields, i - 1)
      case None => Unmatched(headers, fields, i - 1) + [headers[i - 1]]
  }

  /** The names row after the headers 0 .. i-1 have been seen, starting from `prefix`. */
  function NamesFrom(prefix: seq<string>, headers: seq<string>, fields: seq<ViewField>, i: nat): seq<string>
    requires i <= |headers|
  {
    if i <= 4 then prefix
    else match FieldFor(fields, headers[i - 1])
      case Some(f) => NamesFrom(prefix, headers, fields, i - 1) + [f.name]
      case None => NamesFrom(prefix, headers, fields, i - 1)
  }

  /** The labels row after the headers 0 .. i-1 have been seen, starting from `prefix`. */
  function LabelsFrom(prefix: seq<string>, headers: seq<string>, fields: seq<ViewField>, i: nat): seq<string>
    requires i <= |headers|
  {
    if i <= 4 then prefix
    else match FieldFor(fields, headers[i - 1])
      case Some(f) => LabelsFrom(prefix, headers, fields, i - 1) + [f.labelText]
      case None => LabelsFrom(prefix, headers, fields, i - 1)
  }

  /** The machine-names row the reconciliation produces. */
  function HeaderNames(headers: seq<string>, fields: seq<ViewField>): seq<string>
  {
    NamesFrom(NamePrefix, headers, fields, |headers|)
  }

  /** The labels row the reconciliation produces. */
  function HeaderLabels(headers: seq<string>, fields: seq<ViewField>): seq<string>
  {
    LabelsFrom(LabelPrefix, headers, fields, |headers|)
  }

  /** The cells 0 .. k-1 of `row` whose header occurs in `labels`, in column order. */
  function ProjectUpTo(row: seq<string>, headers: seq<string>, labels: seq<string>, k: nat): seq<string>
    requires k <= |headers| <= |row|
  {
    if k == 0 then []
    else if headers[k - 1] in labels then ProjectUpTo(row, headers, labels, k - 1) + [row[k - 1]]
    else ProjectUpTo(row, headers, labels, k - 1)
  }

  function Project(row: seq<string>, headers: seq<string>, labels: seq<string>): seq<string>
    requires |headers| <= |row|
  {
    ProjectUpTo(row, headers, labels, |headers|)
  }

  /**
   * Whether every data row is at least as long as the header row, as on every
   * sheet csv.ReadAll returns with its default field count. The engines take
   * a sheet without this as an index out of range.
   */
  predicate RowsCoverHeader(csvData: seq<seq<string>>)
    requires |csvData| >= 1
  {
    forall j :: 1 <= j < |csvData| ==> |csvData[j]| >= |csvData[0]|
  }

  /** The whole table the reconciliation returns: names row, labels row, then each data row projected. */
  function MatchedTable(viewFields: seq<ViewField>, csvData: seq<seq<string>>): seq<seq<string>>
    requires |csvData| >= 1 && RowsCoverHeader(csvData)
  {
    [HeaderNames(csvData[0], viewFields), HeaderLabels(csvData[0], viewFields)]
      + seq(|csvData| - 1, j requires 0 <= j < |csvData| - 1 =>
              Project(csvData[j + 1], csvData[0], HeaderLabels(csvData[0], viewFields)))
  }

  /** `contains`: list membership, by an early-exit scan. */
  method Contains(slice: seq<string>, value: string) returns (found: bool)
    ensures found <==> value in slice
  {
    var i := 0;
    while i < |slice|
      invariant i <= |slice|
      invariant value !in slice[..i]
    {
      if slice[i] == value {
        return true;
      }
      i := i + 1;
    }
    assert slice[..i] == slice;
    return false;
  }

  /** Every element is the empty string (vacuously so for the empty list). */
  predicate IsBlank(arr: seq<string>)
  {
    forall t :: 0 <= t < |arr| ==> arr[t] == ""
  }

  /** `IsBlankStringArray`, by an early-exit scan. */
  method IsBlankStringArray(arr: seq<string>) returns (blank: bool)
    ensures blank <==> IsBlank(arr)
  {
    var i := 0;
    while i < |arr|
      invariant i <= |arr|
      invariant forall t :: 0 <= t < i ==> arr[t] == ""
    {
      if arr[i] != "" {
        return false;
      }
      i := i + 1;
    }
    return true;
  }

  /** The inner scan of the header loop: the first view field labelled `header`, if any. */
  method FindByLabel(viewFields: seq<ViewField>, header: string) returns (found: bool, v: nat)
    ensures found ==> v < |viewFields| && FieldFor(viewFields, header) == Some(viewFields[v])
    ensures !found ==> FieldFor(viewFields, header) == None
  {
    v := 0;
    while v < |viewFields|
      invariant v <= |viewFields|
      invariant FieldFor(viewFields, header) == FieldFor(viewFields[v..], header)
    {
      if header == viewFields[v].labelText {
        return true, v;
      }
      assert viewFields[v..][1..] == viewFields[v + 1..];
      v := v + 1;
    }
    return false, v;
  }

  /** The projection of one data row: the cells whose header occurs in the labels row. */
  method ProjectRow(row: seq<string>, headers: seq<string>, labels: seq<string>) returns (matchingRow: seq<string>)
    requires |headers| <= |row|
    ensures matchingRow == Project(row, headers, labels)
  {
    matchingRow := [];
    var k := 0;
    while k < |headers|
      invariant k <= |headers|
      invariant matchingRow == ProjectUpTo(row, headers, labels, k)
    {
      var keep := Contains(labels, headers[k]);
      if keep {
        matchingRow := matchingRow + [row[k]];
      }
      k := k + 1;
    }
  }

  /**
   * The header loop of `MatchCSVtoAPI`: the fixed prefixes, then for each
   * header from index 4 on either the first view field carrying it as label
   * or an entry in the unmatched list.
   */
  method MatchHeaders(viewFields: seq<ViewField>, headers: seq<string>)
    returns (names: seq<string>, labels: seq<string>, nonMatching: seq<string>)
    ensures names == HeaderNames(headers, viewFields)
    ensures labels == HeaderLabels(headers, viewFields)
    ensures nonMatching == Unmatched(headers, viewFields, |headers|)
  {
    names := ["id", "original_name", "size", "title"];
    labels := ["id", "original_name"];
    names := names + ["size"];
    labels := labels + ["title"];
    nonMatching := [];

    var index := 0;
    while index < |headers|
      invariant index <= |headers|
      invariant names == NamesFrom(NamePrefix, headers, viewFields, index)
      invariant labels == LabelsFrom(LabelPrefix, headers, viewFields, index)
      invariant nonMatching == Unmatched(headers, viewFields, index)
    {
      if index > 3 {
        var found, v := FindByLabel(viewFields, headers[index]);
        if found {
          names := names + [viewFields[v].name];
          labels := labels + [viewFields[v].labelText];
        } else {
          nonMatching := nonMatching + [headers[index]];
        }
      }
      index := index + 1;
    }
  }

  /**
   * `MatchCSVtoAPI(viewFields, csvData)`: the names row, the labels row and one
   * projected row per data row, plus the headers from index 4 on that no view
   * field carries. The error result is always nil. Every data row must be at
   * least as long as the header row (a shorter one makes the source index out
   * of range).
   */
  method MatchCSVtoAPI(viewFields: seq<ViewField>, csvData: seq<seq<string>>)
    returns (matching: seq<seq<string>>, nonMatching: seq<string>, err: MaybeError)
    requires |csvData| >= 1
    requires RowsCoverHeader(csvData)
    ensures err == None
    ensures matching == MatchedTable(viewFields, csvData)
    ensures |matching| == |csvData| + 1
    ensures matching[0] == HeaderNames(csvData[0], viewFields)
    ensures matching[1] == HeaderLabels(csvData[0], viewFields)
    ensures forall j :: 1 <= j < |csvData| ==> matching[j + 1] == Project(csvData[j], csvData[0], matching[1])
    ensures nonMatching == Unmatched(csvData[0], viewFields, |csvData[0]|)
  {
    var headers := csvData[0];
    var names, labels;
    names, labels, nonMatching := MatchHeaders(viewFields, headers);

    matching := [names, labels];
    var j := 1;
    while j < |csvData|
      invariant 1 <= j <= |csvData|
      invariant |matching| == j + 1
      invariant matching[0] == names && matching[1] == labels
      invariant forall t :: 1 <= t < j ==> matching[t + 1] == Project(csvData[t], headers, labels)
    {
      var matchingRow := ProjectRow(csvData[j], headers, labels);
      matching := matching + [matchingRow];
      j := j + 1;
    }
    assert matching == MatchedTable(viewFields, csvData);
    err := None;
  }

  /** The names of a list of view fields, in order. */
  function NamesOf(fs: seq<ViewField>): (r: seq<string>)
    ensures |r| == |fs|
  {
    if |fs| == 0 then [] else NamesOf(fs[..|fs| - 1]) + [fs[|fs| - 1].name]
  }

  /** The labels of a list of view fields, in order. */
  function LabelsOf(fs: seq<ViewField>): (r: seq<string>)
    ensures |r| == |fs|
  {
    if |fs| == 0 then [] else LabelsOf(fs[..|fs| - 1]) + [fs[|fs| - 1].labelText]
  }

  /** `FieldFor` finds nothing exactly when no view field carries the label. */
  lemma {:induction false} FieldForNone(fields: seq<ViewField>, wanted: string)
    ensures FieldFor(fields, wanted) == None <==> forall j :: 0 <= j < |fields| ==> fields[j].labelText != wanted
  {
    if |fields| > 0 && fields[0].labelText != wanted {
      FieldForNone(fields[1..], wanted);
      assert forall j :: 1 <= j < |fields| ==> fields[j] == fields[1..][j - 1];
    }
  }

  /** `FieldFor` returns the view field at the first index whose label matches. */
  lemma {:induction false} FieldForFirst(fields: seq<ViewField>, wanted: string, k: nat)
    requires k < |fields| && fields[k].labelText == wanted
    requires forall j :: 0 <= j < k ==> fields[j].labelText != wanted
    ensures FieldFor(fields, wanted) == Some(fields[k])
  {
    if k > 0 {
      FieldForFirst(fields[1..], wanted, k - 1);
    }
  }

  /**
   * After the fixed prefix, the names row and the labels row hold the names
   * and the labels of the same matched view fields, in column order.
   */
  lemma {:induction false} RowsFromMatched(prefixN: seq<string>, prefixL: seq<string>, headers: seq<string>, fields: seq<ViewField>, i: nat)
    requires i <= |headers|
    ensures NamesFrom(prefixN, headers, fields, i) == prefixN + NamesOf(MatchedFields(headers, fields, i))
    ensures LabelsFrom(prefixL, headers, fields, i) == prefixL + LabelsOf(MatchedFields(headers, fields, i))
  {
    if i > 4 {
      RowsFromMatched(prefixN, prefixL, headers, fields, i - 1);
      match FieldFor(fields, headers[i - 1])
      case Some(f) =>
        var m := MatchedFields(headers, fields, i - 1);
        assert (m + [f])[..|m|] == m;
      case None =>
    }
  }

  /** A field `FieldFor` returns is one of the view's fields. */
  lemma {:induction false} FieldForMember(fields: seq<ViewField>, wanted: string)
    ensures FieldFor(fields, wanted).Some? ==> FieldFor(fields, wanted).value in fields
  {
    if |fields| > 0 && fields[0].labelText != wanted {
      FieldForMember(fields[1..], wanted);
    }
  }

  /** Every matched field is one of the view's fields. */
  lemma {:induction false} MatchedFromView(headers: seq<string>, fields: seq<ViewField>, i: nat)
    requires i <= |headers|
    ensures forall g :: g in MatchedFields(headers, fields, i) ==> g in fields
  {
    if i > 4 {
      MatchedFromView(headers, fields, i - 1);
      FieldForMember(fields, headers[i - 1]);
    }
  }

  /** A label no view field carries never reaches the labels row past the prefix. */
  lemma {:induction false} LabelsAvoid(headers: seq<string>, fields: seq<ViewField>, i: nat, x: string)
    requires i <= |headers|
    requires forall j :: 0 <= j < |fields| ==> fields[j].labelText != x
    ensures x !in LabelsOf(MatchedFields(headers, fields, i))
  {
    if i > 4 {
      LabelsAvoid(headers, fields, i - 1, x);
      match FieldFor(fields, headers[i - 1])
      case Some(f) =>
        var m := MatchedFields(headers, fields, i - 1);
        assert (m + [f])[..|m|] == m;
        FieldForMember(fields, headers[i - 1]);
      case None =>
    }
  }

  /**
   * The headers from index 4 on are split between the matched fields and the
   * unmatched list: each lands in exactly one of them.
   */
  lemma {:induction false} MatchPartition(headers: seq<string>, fields: seq<ViewField>, i: nat)
    requires i <= |headers|
    ensures |MatchedFields(headers, fields, i)| + |Unmatched(headers, fields, i)| == if i <= 4 then 0 else i - 4
  {
    if i > 4 {
      MatchPartition(headers, fields, i - 1);
    }
  }

  /**
   * A header is reported unmatched exactly when it stands at index 4 or later
   * and no view field carries it as label; the first four columns are never
   * looked up.
   */
  lemma {:induction false} UnmatchedMembers(headers: seq<string>, fields: seq<ViewField>, i: nat, x: string)
    requires 4 <= i <= |headers|
    ensures x in Unmatched(headers, fields, i) <==>
      x in headers[4..i] && forall j :: 0 <= j < |fields| ==> fields[j].labelText != x
  {
    FieldForNone(fields, x);
    if i > 4 {
      UnmatchedMembers(headers, fields, i - 1, x);
      assert headers[4..i] == headers[4..i - 1] + [headers[i - 1]];
      FieldForNone(fields, headers[i - 1]);
    }
  }

  /**
   * The names row begins id, original_name, size, title, size (five entries)
   * while the labels row begins id, original_name, title (three), so the
   * names row is always two entries longer than the labels row.
   */
  lemma HeaderRowPrefixes(headers: seq<string>, fields: seq<ViewField>)
    ensures |HeaderNames(headers, fields)| >= 5 && |HeaderLabels(headers, fields)| >= 3
    ensures HeaderNames(headers, fields)[..5] == ["id", "original_name", "size", "title", "size"]
    ensures HeaderLabels(headers, fields)[..3] == ["id", "original_name", "title"]
    ensures |HeaderNames(headers, fields)| == |HeaderLabels(headers, fields)| + 2
  {
    RowsFromMatched(NamePrefix, LabelPrefix, headers, fields, |headers|);
  }

  /** The column indices 0 .. k-1 whose header occurs in `labels`, ascending. */
  function KeptIndices(headers: seq<string>, labels: seq<string>, k: nat): (r: seq<nat>)
    requires k <= |headers|
    ensures forall t :: 0 <= t < |r| ==> r[t] < k
  {
    if k == 0 then []
    else if headers[k - 1] in labels then KeptIndices(headers, labels, k - 1) + [k - 1]
    else KeptIndices(headers, labels, k - 1)
  }

  /** The kept indices are ascending, and index j is kept exactly when header j occurs in `labels`. */
  lemma {:induction false} KeptIndicesExactly(headers: seq<string>, labels: seq<string>, k: nat)
    requires k <= |headers|
    ensures forall t, u :: 0 <= t < u < |KeptIndices(headers, labels, k)| ==>
      KeptIndices(headers, labels, k)[t] < KeptIndices(headers, labels, k)[u]
    ensures forall j :: 0 <= j < k ==> (j in KeptIndices(headers, labels, k) <==> headers[j] in labels)
  {
    if k > 0 {
      KeptIndicesExactly(headers, labels, k - 1);
    }
  }

  /**
   * A projected row holds, in order, the cells at the kept indices: cell k
   * survives exactly when header k occurs in the labels row.
   */
  lemma {:induction false} ProjectKeeps(row: seq<string>, headers: seq<string>, labels: seq<string>, k: nat)
    requires k <= |headers| <= |row|
    ensures |ProjectUpTo(row, headers, labels, k)| == |KeptIndices(headers, labels, k)|
    ensures forall t :: 0 <= t < |KeptIndices(headers, labels, k)| ==>
      ProjectUpTo(row, headers, labels, k)[t] == row[KeptIndices(headers, labels, k)[t]]
  {
    if k > 0 {
      ProjectKeeps(row, headers, labels, k - 1);
    }
  }

  /**
   * The "size" label reaches the labels row only through a view field
   * labelled "size", so without one the size column is dropped from every
   * projected row.
   */
  lemma SizeColumnDropped(headers: seq<string>, fields: seq<ViewField>)
    requires |headers| >= 4 && headers[2] == "size"
    requires forall j :: 0 <= j < |fields| ==> fields[j].labelText != "size"
    ensures "size" !in HeaderLabels(headers, fields)
    ensures 2 !in KeptIndices(headers, HeaderLabels(headers, fields), |headers|)
  {
    var m := MatchedFields(headers, fields, |headers|);
    var lbls := HeaderLabels(headers, fields);
    RowsFromMatched(NamePrefix, LabelPrefix, headers, fields, |headers|);
    assert lbls == LabelPrefix + LabelsOf(m);
    LabelsAvoid(headers, fields, |headers|, "size");
    assert "size" !in LabelPrefix;
    KeptIndicesExactly(headers, lbls, |headers|);
  }

  /**
   * A sheet with only the four fixed columns: the labels row has no "size",
   * so every projected row keeps three cells (id, original name, title) and
   * has no cell 3, the cell the import engines read as the title.
   */
  lemma FourColumnSheet(fields: seq<ViewField>, row: seq<string>)
    requires |row| >= 4
    ensures Project(row, ["id", "original_name", "size", "title"], HeaderLabels(["id", "original_name", "size", "title"], fields))
      == [row[0], row[1], row[3]]
  {
    var headers := ["id", "original_name", "size", "title"];
    assert HeaderLabels(headers, fields) == LabelPrefix;
    assert headers[0] == LabelPrefix[0] && headers[1] == LabelPrefix[1];
    AllKept(row, headers, LabelPrefix, 2);
    assert headers[2] !in LabelPrefix;
    assert headers[3] == LabelPrefix[2];
    assert ProjectUpTo(row, headers, LabelPrefix, 3) == row[..2] == [row[0], row[1]];
  }

  /** The four fixed columns, the same in the names row and the labels row. */
  const AlignedPrefix: seq<string> := ["id", "original_name", "size", "title"]

  /** The labels row built from the four-entry prefix. */
  function AlignedLabels(headers: seq<string>, fields: seq<ViewField>): seq<string>
  {
    LabelsFrom(AlignedPrefix, headers, fields, |headers|)
  }

  /** A label reaches the labels row past the prefix exactly when it heads a column from index 4 on and some view field carries it. */
  lemma {:induction false} MatchedLabels(headers: seq<string>, fields: seq<ViewField>, i: nat, x: string)
    requires 4 <= i <= |headers|
    ensures x in LabelsOf(MatchedFields(headers, fields, i)) <==> x in headers[4..i] && FieldFor(fields, x).Some?
  {
    if i > 4 {
      MatchedLabels(headers, fields, i - 1, x);
      assert headers[4..i] == headers[4..i - 1] + [headers[i - 1]];
      match FieldFor(fields, headers[i - 1])
      case Some(f) =>
        var m := MatchedFields(headers, fields, i - 1);
        assert (m + [f])[..|m|] == m;
        FieldForLabel(fields, headers[i - 1]);
      case None =>
    }
  }

  /** A field `FieldFor` returns carries the label it was asked for. */
  lemma {:induction false} FieldForLabel(fields: seq<ViewField>, wanted: string)
    ensures FieldFor(fields, wanted).Some? ==> FieldFor(fields, wanted).value.labelText == wanted
  {
    if |fields| > 0 && fields[0].labelText != wanted {
      FieldForLabel(fields[1..], wanted);
    }
  }

  /** Past column 3, a column is kept exactly when it is matched, so the kept count follows the matched count. */
  lemma {:induction false} KeptCountsMatched(headers: seq<string>, fields: seq<ViewField>, labels: seq<string>, k: nat)
    requires 4 <= k <= |headers| && |KeptIndices(headers, labels, 4)| == 4
    requires forall j :: 4 <= j < |headers| ==> (headers[j] in labels <==> FieldFor(fields, headers[j]).Some?)
    ensures |KeptIndices(headers, labels, k)| == 4 + |MatchedFields(headers, fields, k)|
  {
    if k > 4 {
      KeptCountsMatched(headers, fields, labels, k - 1);
    }
  }

  /** When every one of the first k headers occurs in `labels`, the first k cells are all kept. */
  lemma {:induction false} AllKept(row: seq<string>, headers: seq<string>, labels: seq<string>, k: nat)
    requires k <= |headers| <= |row|
    requires forall j :: 0 <= j < k ==> headers[j] in labels
    ensures |KeptIndices(headers, labels, k)| == k
    ensures ProjectUpTo(row, headers, labels, k) == row[..k]
  {
    if k > 0 {
      AllKept(row, headers, labels, k - 1);
      assert row[..k] == row[..k - 1] + [row[k - 1]];
    }
  }

  /**
   * With the four-entry prefix on both rows, a sheet whose first four headers
   * are the fixed columns (and whose later headers do not repeat them) gets a
   * names row, a labels row and projected rows of one length, and every
   * projected row starts with the id, original name, size and title cells.
   */
  lemma AlignedKeepsFixedColumns(headers: seq<string>, fields: seq<ViewField>, row: seq<string>)
    requires |headers| >= 4 && headers[..4] == AlignedPrefix
    requires forall j :: 4 <= j < |headers| ==> headers[j] !in AlignedPrefix
    requires |row| >= |headers|
    ensures |AlignedLabels(headers, fields)| >= 4
    ensures |NamesFrom(AlignedPrefix, headers, fields, |headers|)| == |AlignedLabels(headers, fields)|
    ensures |Project(row, headers, AlignedLabels(headers, fields))| == |AlignedLabels(headers, fields)|
    ensures Project(row, headers, AlignedLabels(headers, fields))[..4] == row[..4]
  {
    var lbls := AlignedLabels(headers, fields);
    RowsFromMatched(AlignedPrefix, AlignedPrefix, headers, fields, |headers|);
    AlignedMembership(headers, fields);
    AllKept(row, headers, lbls, 4);
    KeptCountsMatched(headers, fields, lbls, |headers|);
    ProjectKeeps(row, headers, lbls, |headers|);
    ProjectGrows(row, headers, lbls, 4, |headers|);
  }

  /** Which headers occur in the aligned labels row: the four fixed ones, and later ones exactly when matched. */
  lemma AlignedMembership(headers: seq<string>, fields: seq<ViewField>)
    requires |headers| >= 4 && headers[..4] == AlignedPrefix
    requires forall j :: 4 <= j < |headers| ==> headers[j] !in AlignedPrefix
    ensures forall j :: 0 <= j < 4 ==> headers[j] in AlignedLabels(headers, fields)
    ensures forall j :: 4 <= j < |headers| ==>
      (headers[j] in AlignedLabels(headers, fields) <==> FieldFor(fields, headers[j]).Some?)
  {
    var lbls := AlignedLabels(headers, fields);
    var m := MatchedFields(headers, fields, |headers|);
    RowsFromMatched(AlignedPrefix, AlignedPrefix, headers, fields, |headers|);
    assert lbls == AlignedPrefix + LabelsOf(m);
    forall j | 0 <= j < 4
      ensures headers[j] in lbls
    {
      assert headers[j] == headers[..4][j] == lbls[j];
    }
    forall j | 4 <= j < |headers|
      ensures headers[j] in lbls <==> FieldFor(fields, headers[j]).Some?
    {
      MatchedLabels(headers, fields, |headers|, headers[j]);
      assert headers[j] in headers[4..|headers|];
    }
  }

  /** Projecting more columns only appends cells. */
  lemma {:induction false} ProjectGrows(row: seq<string>, headers: seq<string>, labels: seq<string>, k1: nat, k2: nat)
    requires k1 <= k2 <= |headers| <= |row|
    ensures ProjectUpTo(row, headers, labels, k1) <= ProjectUpTo(row, headers, labels, k2)
  {
    if k1 < k2 {
      ProjectGrows(row, headers, labels, k1, k2 - 1);
    }
  }

  /** The objects of a collection as lookup entries: ID and original file names. */
  function EntriesOf(objects: seq<CollectionsDomain.ObjectDTO>): (r: seq<Entry>)
    ensures |r| == |objects|
    ensures forall k :: 0 <= k < |r| ==> r[k].id == objects[k].id && |r[k].fileNames| == |objects[k].files|
    ensures forall k, i :: 0 <= k < |r| && 0 <= i < |r[k].fileNames| ==> r[k].fileNames[i] == objects[k].files[i].originalName
  {
    seq(|objects|, k requires 0 <= k < |objects| =>
      Entry(objects[k].id, seq(|objects[k].files|, i requires 0 <= i < |objects[k].files| => objects[k].files[i].originalName)))
  }

  /** Some object of the collection has a file with this original name. */
  predicate HasFileNamed(objects: seq<CollectionsDomain.ObjectDTO>, name: string)
  {
    exists k, i :: 0 <= k < |objects| && 0 <= i < |objects[k].files| && objects[k].files[i].originalName == name
  }

  /**
   * `ValidateFilename(objects, csvMetadata)`: nil when some object has a file
   * whose original name is the record's, otherwise an error naming the file.
   * The ID the source assigns on success goes to its by-value copy of the
   * record, so only the error is returned.
   */
  function ValidateFilename(objects: seq<CollectionsDomain.ObjectDTO>, metadata: CsvDomain.Record): (r: MaybeError)
    ensures r == None <==> HasFileNamed(objects, metadata.originalName)
    ensures r != None ==> r == Some("file " + metadata.originalName + " does not exist in given collection id")
  {
    var entries := EntriesOf(objects);
    match FirstOwner(entries, metadata.originalName)
    case Some(k) =>
      assert metadata.originalName in entries[k].fileNames;
      None
    case None =>
      assert !HasFileNamed(objects, metadata.originalName) by {
        forall k, i | 0 <= k < |objects| && 0 <= i < |objects[k].files|
          ensures objects[k].files[i].originalName != metadata.originalName
        {
          assert entries[k].fileNames[i] == objects[k].files[i].originalName;
        }
      }
      Some("file " + metadata.originalName + " does not exist in given collection id")
  }
}
