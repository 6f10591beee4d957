/**
 * The export side (internal/core/services/output/svcs.go): the header row
 * of a metadata view, the formatting of search results into rows with the
 * same columns, and `ProcessPage`, which walks the search results of a
 * collection page by page with search_after and writes each page's rows.
 *
 * `other` stands for the `%d` rendering of a value that is neither a
 * string, a boolean nor a number; `api` for the search facade; `show` for
 * the `%v` rendering of a decoded `errors` member. The search path is a
 * parameter, because the constant the source names is not defined in the
 * paths file.
 */
module OutputSvc {
  import opened Wrappers
  import opened Json
  import opened SearchDomain
  import Text
  import MetadataDomain
  import SearchSvc

  type ViewField = MetadataDomain.ViewFieldDTO

  /** The four columns every row opens with. */
  const FixedHeaders: seq<string> := ["id", "original_name", "size", "title"]

  /** The fields of the view that become columns: all but the separators, in view order. */
  function Columns(viewFields: seq<ViewField>): (r: seq<ViewField>)
    ensures |r| <= |viewFields|
  {
    if |viewFields| == 0 then []
    else
      var last := viewFields[|viewFields| - 1];
      Columns(viewFields[..|viewFields| - 1]) + if last.name != MetadataDomain.Separator then [last] else []
  }

  /** The columns are exactly the fields of the view that are not separators. */
  lemma {:induction false} ColumnsAreFields(viewFields: seq<ViewField>)
    ensures forall f :: f in Columns(viewFields) <==> f in viewFields && f.name != MetadataDomain.Separator
  {
    if |viewFields| > 0 {
      var init := viewFields[..|viewFields| - 1];
      ColumnsAreFields(init);
      assert viewFields == init + [viewFields[|viewFields| - 1]];
    }
  }

  /** The machine names of the columns, which key the metadata of an object. */
  function ColumnNames(viewFields: seq<ViewField>): (r: seq<string>)
    ensures |r| == |Columns(viewFields)|
  {
    var cols := Columns(viewFields);
    seq(|cols|, i requires 0 <= i < |cols| => cols[i].name)
  }

  /** The labels of the columns, which head them. */
  function ColumnLabels(viewFields: seq<ViewField>): (r: seq<string>)
    ensures |r| == |Columns(viewFields)|
  {
    var cols := Columns(viewFields);
    seq(|cols|, i requires 0 <= i < |cols| => cols[i].labelText)
  }

  /** The header row of an export. */
  function HeaderRow(viewFields: seq<ViewField>): seq<string>
  {
    FixedHeaders + ColumnLabels(viewFields)
  }

  /** Taking one more field of the view adds at most that field as a column. */
  lemma ColumnsNext(viewFields: seq<ViewField>, i: nat)
    requires i < |viewFields|
    ensures Columns(viewFields[..i + 1])
            == Columns(viewFields[..i]) + if viewFields[i].name != MetadataDomain.Separator then [viewFields[i]] else []
  {
    assert viewFields[..i + 1][..i] == viewFields[..i];
  }

  /** Taking one more field of the view adds at most its label to the labels. */
  lemma LabelsNext(viewFields: seq<ViewField>, i: nat)
    requires i < |viewFields|
    ensures ColumnLabels(viewFields[..i + 1])
            == ColumnLabels(viewFields[..i]) + if viewFields[i].name != MetadataDomain.Separator then [viewFields[i].labelText] else []
  {
    ColumnsNext(viewFields, i);
  }

  /** Taking one more field of the view adds at most its name to the names. */
  lemma NamesNext(viewFields: seq<ViewField>, i: nat)
    requires i < |viewFields|
    ensures ColumnNames(viewFields[..i + 1])
            == ColumnNames(viewFields[..i]) + if viewFields[i].name != MetadataDomain.Separator then [viewFields[i].name] else []
  {
    ColumnsNext(viewFields, i);
  }

  /** `Headers(viewFields)`: the one-row file holding the header row. */
  method Headers(viewFields: seq<ViewField>) returns (metadataFile: seq<seq<string>>)
    ensures metadataFile == [HeaderRow(viewFields)]
  {
    var csvColumnsLabel: seq<string> := [];
    var i := 0;
    while i < |viewFields|
      invariant i <= |viewFields|
      invariant csvColumnsLabel == ColumnLabels(viewFields[..i])
    {
      LabelsNext(viewFields, i);
      if viewFields[i].name != MetadataDomain.Separator {
        csvColumnsLabel := csvColumnsLabel + [viewFields[i].labelText];
      }
      i := i + 1;
    }
    assert viewFields[..i] == viewFields;
    var headerRow := ["id", "original_name", "size", "title"] + csvColumnsLabel;
    metadataFile := [headerRow];
  }

  /** A string value without its leading spaces, when it has some. */
  function LeftTrimmed(s: string): string
  {
    if |s| > 0 && s[0] == ' ' then Text.TrimLeft(s, ' ') else s
  }

  /** A string value without its trailing spaces, when it has some. */
  function RightTrimmed(s: string): string
  {
    if |s| > 0 && s[|s| - 1] == ' ' then Text.TrimRight(s, ' ') else s
  }

  /** A string value without its leading spaces, then without its trailing spaces. */
  function TrimSpaces(s: string): string
  {
    RightTrimmed(LeftTrimmed(s))
  }

  /** One metadata value as text: strings lose their outer spaces, booleans and numbers are spelled out. */
  function Render(v: Json, other: Json -> string): string
  {
    match v
    case JString(s) => TrimSpaces(s)
    case JBool(b) => if b then "true" else "false"
    case JNumber(n) => Text.Itoa(n)
    case _ => other(v)
  }

  /** The rendered values of a metadata field, in order. */
  function Rendered(values: seq<Json>, other: Json -> string): (r: seq<string>)
    ensures |r| == |values|
  {
    seq(|values|, k requires 0 <= k < |values| => Render(values[k], other))
  }

  /** The cell of a metadata field: its rendered values, comma-joined when there are several. */
  function Cell(values: seq<Json>, other: Json -> string): string
  {
    var result := Rendered(values, other);
    if |result| > 1 then Text.Join(result, ",") else Text.Join(result, "")
  }

  /** The values an object holds for a field; a field it lacks holds none. */
  function ValuesOf(o: ObjectDTO, name: string): seq<Json>
  {
    if name in o.metadata then o.metadata[name] else []
  }

  /** The four cells every row opens with: ID, original name and size of the first file ("N/A" without files), title. */
  function OpeningCells(o: ObjectDTO): (r: seq<string>)
    ensures |r| == 4
  {
    [o.id,
     if |o.files| > 0 then o.files[0].originalName else "N/A",
     if |o.files| > 0 then Text.Itoa(o.files[0].size) else "N/A",
     o.title]
  }

  /** The cells of one object under the columns `names`, one per column. */
  function FieldCells(names: seq<string>, o: ObjectDTO, other: Json -> string): (r: seq<string>)
    ensures |r| == |names|
  {
    seq(|names|, i requires 0 <= i < |names| => Cell(ValuesOf(o, names[i]), other))
  }

  /** The row of one object under the columns `names`. */
  function FormatRow(names: seq<string>, o: ObjectDTO, other: Json -> string): (r: seq<string>)
    ensures |r| == |names| + 4
  {
    OpeningCells(o) + FieldCells(names, o, other)
  }

  /** The rows of a list of objects, in order. */
  function FormatRows(names: seq<string>, objs: seq<ObjectDTO>, other: Json -> string): (r: seq<seq<string>>)
    ensures |r| == |objs|
  {
    seq(|objs|, k requires 0 <= k < |objs| => FormatRow(names, objs[k], other))
  }

  /** The cell of one field: the values rendered into a fresh slice, then joined. */
  method FormatCell(values: seq<Json>, other: Json -> string) returns (cell: string)
    ensures cell == Cell(values, other)
  {
    var result := new string[|values|];
    var index := 0;
    while index < |values|
      invariant index <= |values|
      invariant forall k :: 0 <= k < index ==> result[k] == Render(values[k], other)
    {
      result[index] := Render(values[index], other);
      index := index + 1;
    }
    assert result[..] == Rendered(values, other);
    if result.Length > 1 {
      cell := Text.Join(result[..], ",");
    } else {
      cell := Text.Join(result[..], "");
    }
  }

  /** The field cells of one object, written into `row` from index 4 on. */
  method FillFieldCells(row: array<string>, names: seq<string>, o: ObjectDTO, other: Json -> string)
    requires row.Length == |names| + 4
    modifies row
    ensures row[..4] == old(row[..4]) && row[4..] == FieldCells(names, o, other)
  {
    var i := 0;
    while i < |names|
      invariant i <= |names|
      invariant row[..4] == old(row[..4])
      invariant forall j :: 0 <= j < i ==> row[j + 4] == FieldCells(names, o, other)[j]
    {
      var cell := FormatCell(ValuesOf(o, names[i]), other);
      row[i + 4] := cell;
      i := i + 1;
    }
  }

  /** One object's row, filled cell by cell. */
  method FormatObject(names: seq<string>, o: ObjectDTO, other: Json -> string) returns (r: seq<string>)
    ensures r == FormatRow(names, o, other)
  {
    var numColumns := |names|;
    var row := new string[numColumns + 4];
    row[0] := o.id;
    row[1] := "N/A";
    row[2] := "N/A";
    if |o.files| > 0 {
      row[1] := o.files[0].originalName;
      row[2] := Text.Itoa(o.files[0].size);
    }
    row[3] := o.title;
    assert row[..4] == OpeningCells(o);
    FillFieldCells(row, names, o, other);
    r := row[..];
    assert r == row[..4] + row[4..];
  }

  /** `FormatResultsObjects(viewFields, objs)`: one row per object, in order; it never reports an error. */
  method FormatResultsObjects(viewFields: seq<ViewField>, objs: seq<ObjectDTO>, other: Json -> string)
    returns (metadataFile: seq<seq<string>>, err: MaybeError)
    ensures metadataFile == FormatRows(ColumnNames(viewFields), objs, other)
    ensures err == None
  {
    var csvColumnsName: seq<string> := [];
    var i := 0;
    while i < |viewFields|
      invariant i <= |viewFields|
      invariant csvColumnsName == ColumnNames(viewFields[..i])
    {
      NamesNext(viewFields, i);
      if viewFields[i].name != MetadataDomain.Separator {
        csvColumnsName := csvColumnsName + [viewFields[i].name];
      }
      i := i + 1;
    }
    assert viewFields[..i] == viewFields;
    metadataFile := [];
    var k := 0;
    while k < |objs|
      invariant k <= |objs|
      invariant metadataFile == FormatRows(csvColumnsName, objs[..k], other)
    {
      var row := FormatObject(csvColumnsName, objs[k], other);
      metadataFile := metadataFile + [row];
      k := k + 1;
    }
    assert objs[..k] == objs;
    err := None;
  }

  /**
   * Rows and header agree: for the same view a row has as many cells as
   * the header row, and past the four fixed columns the cell under each
   * label holds the values of the field carrying that label.
   */
  lemma RowMatchesHeader(viewFields: seq<ViewField>, o: ObjectDTO, other: Json -> string)
    ensures |FormatRow(ColumnNames(viewFields), o, other)| == |HeaderRow(viewFields)|
    ensures forall i :: 0 <= i < |Columns(viewFields)| ==>
      HeaderRow(viewFields)[i + 4] == Columns(viewFields)[i].labelText &&
      FormatRow(ColumnNames(viewFields), o, other)[i + 4] == Cell(ValuesOf(o, Columns(viewFields)[i].name), other)
  {
  }

  /**
   * The fixed cells: the ID, then the first file's original name and its
   * size (which reads back as that number), or "N/A" for both when the
   * object has no file, then the title.
   */
  lemma FixedCells(names: seq<string>, o: ObjectDTO, other: Json -> string)
    ensures var r := FormatRow(names, o, other);
      r[0] == o.id && r[3] == o.title &&
      (|o.files| == 0 ==> r[1] == "N/A" && r[2] == "N/A") &&
      (|o.files| > 0 ==> r[1] == o.files[0].originalName && Text.AtoiAccepts(r[2]) && Text.AtoiValue(r[2]) == o.files[0].size)
  {
    if |o.files| > 0 {
      Text.ItoaAtoi(o.files[0].size);
    }
  }

  /** The leading spaces go, and only they: what is left is the value from position `a` on. */
  lemma LeftTrim(s: string) returns (a: nat)
    ensures a <= |s| && LeftTrimmed(s) == s[a..] && (LeftTrimmed(s) == [] || LeftTrimmed(s)[0] != ' ')
    ensures forall j :: 0 <= j < a ==> s[j] == ' '
  {
    if |s| > 0 && s[0] == ' ' {
      a := |s| - |Text.TrimLeft(s, ' ')|;
    } else {
      a := 0;
    }
  }

  /** The trailing spaces go, and only they: what is left is a prefix of the value. */
  lemma RightTrim(s: string)
    ensures var r := RightTrimmed(s);
      r == s[..|r|] && (r == [] || r[|r| - 1] != ' ') && (forall j :: |r| <= j < |s| ==> s[j] == ' ')
  {
  }

  /**
   * A string value loses every leading and trailing space and nothing
   * else: what is left is the stretch of the value from position `a`, with
   * only spaces around it, and it neither starts nor ends with a space.
   */
  lemma TrimsSpaces(s: string) returns (a: nat)
    ensures var r := TrimSpaces(s);
      (r == [] || (r[0] != ' ' && r[|r| - 1] != ' ')) &&
      a + |r| <= |s| && r == s[a..a + |r|] &&
      (forall j :: 0 <= j < a ==> s[j] == ' ') && (forall j :: a + |r| <= j < |s| ==> s[j] == ' ')
  {
    a := LeftTrim(s);
    var str := LeftTrimmed(s);
    RightTrim(str);
    var r := RightTrimmed(str);
    assert TrimSpaces(s) == r;
    assert str == s[a..] && r == str[..|r|];
    assert r == [] || r[0] == str[0];
    assert s[a..a + |r|] == str[..|r|];
    forall j | a + |r| <= j < |s|
      ensures s[j] == ' '
    {
      assert s[j] == str[j - a];
    }
  }

  /**
   * A cell is always the comma-join of the rendered values, and an
   * importer splitting it on commas gets those values back, unless one of
   * them holds a comma itself; a field without values gives the empty cell.
   */
  lemma CellRoundTrip(values: seq<Json>, other: Json -> string)
    ensures Cell(values, other) == Text.Join(Rendered(values, other), ",")
    ensures |values| == 0 ==> Cell(values, other) == ""
    ensures |values| >= 1 && (forall k :: 0 <= k < |values| ==> ',' !in Render(values[k], other)) ==>
              Text.Split(Cell(values, other), ',') == Rendered(values, other)
  {
    if |values| >= 1 && (forall k :: 0 <= k < |values| ==> ',' !in Render(values[k], other)) {
      Text.JoinSplit(Rendered(values, other), ',');
    }
  }

  /** A writer that keeps the rows written; `fails(n)` is the error of its n-th `WriteAll` call. */
  class Sink {
    var rows: seq<seq<string>>
    var writes: nat
    const fails: nat -> MaybeError

    constructor(fails: nat -> MaybeError)
      ensures rows == [] && writes == 0 && this.fails == fails
    {
      rows := [];
      writes := 0;
      this.fails := fails;
    }

    /** `WriteAll(batch)`: the rows are kept unless the call fails. */
    method WriteAll(batch: seq<seq<string>>) returns (err: MaybeError)
      modifies this
      ensures err == fails(old(writes)) && writes == old(writes) + 1
      ensures rows == if err == None then old(rows) + batch else old(rows)
    {
      err := fails(writes);
      if err == None {
        rows := rows + batch;
      }
      writes := writes + 1;
    }
  }

  /** The search document of a page: the export query, continued after `searchAfter` when it is non-empty. */
  function PageDocument(collectionID: string, searchAfter: seq<Json>): (s: Search)
    ensures s == SearchSvc.SearchDocument("", collectionID).(searchAfter := searchAfter)
  {
    var s := SearchSvc.SearchDocument("", collectionID);
    if |searchAfter| > 0 then s.(searchAfter := searchAfter) else s
  }

  /**
   * What one page of an export comes to: the rows written, the
   * search_after value of the page to request next (none when the export
   * stops here), whether the writer was called, and the error.
   */
  datatype PageOutcome = PageOutcome(rows: seq<seq<string>>, next: Option<seq<Json>>, written: bool, err: MaybeError)

  /**
   * One page after `searchAfter`: searched, formatted and written with the
   * writer's call number `writes`; a page with objects is followed by the
   * page after its last object.
   */
  function ExportPage(api: SearchSvc.SearchApi, show: Json -> string, path: string, other: Json -> string,
                      viewFields: seq<ViewField>, collectionID: string, searchAfter: seq<Json>,
                      fails: nat -> MaybeError, writes: nat): (p: PageOutcome)
    ensures p.next.Some? ==> p.err.None? && p.written
  {
    var results := SearchSvc.SearchResults(api, show, path, PageDocument(collectionID, searchAfter));
    if results.err.Some? then PageOutcome([], None, false, results.err)
    else if fails(writes).Some? then PageOutcome([], None, true, fails(writes))
    else
      var objs := results.value.objects;
      PageOutcome(FormatRows(ColumnNames(viewFields), objs, other),
                  if |objs| > 0 then Some(objs[|objs| - 1].sort) else None, true, None)
  }

  /**
   * A page leads on exactly when it was searched and written without error
   * and held objects, and then to the page after its last object; the
   * writer is called exactly when the search succeeded; a failed search
   * or write is the page's error.
   */
  lemma PageOutcomes(api: SearchSvc.SearchApi, show: Json -> string, path: string, other: Json -> string,
                     viewFields: seq<ViewField>, collectionID: string, searchAfter: seq<Json>,
                     fails: nat -> MaybeError, writes: nat)
    ensures var p := ExportPage(api, show, path, other, viewFields, collectionID, searchAfter, fails, writes);
      var page := SearchSvc.SearchResults(api, show, path, PageDocument(collectionID, searchAfter));
      (p.written <==> page.err.None?) &&
      (page.err.Some? ==> p.err == page.err && p.rows == []) &&
      (page.err.None? ==> p.err == fails(writes)) &&
      (p.err.None? ==> p.rows == FormatRows(ColumnNames(viewFields), page.value.objects, other)) &&
      (p.next.Some? <==> page.err.None? && fails(writes).None? && |page.value.objects| > 0) &&
      (p.next.Some? ==> p.next.value == page.value.objects[|page.value.objects| - 1].sort)
  {
  }

  /**
   * The write and the continuation of one page, as `ProcessPage` does
   * them: the search, the formatting, the write, and the search_after
   * value of the next page when this one had objects.
   */
  method WritePage(api: SearchSvc.SearchApi, show: Json -> string, path: string, other: Json -> string,
                   viewFields: seq<ViewField>, collectionID: string, searchAfter: seq<Json>, w: Sink)
    returns (err: MaybeError, next: Option<seq<Json>>)
    modifies w
    ensures var p := ExportPage(api, show, path, other, viewFields, collectionID, searchAfter, w.fails, old(w.writes));
      w.rows == old(w.rows) + p.rows && w.writes == old(w.writes) + (if p.written then 1 else 0) &&
      err == p.err && next == p.next
  {
    ghost var p := ExportPage(api, show, path, other, viewFields, collectionID, searchAfter, w.fails, w.writes);
    var s := SearchSvc.SearchDocument("", collectionID);
    if |searchAfter| > 0 {
      s := s.(searchAfter := searchAfter);
    }
    assert s == PageDocument(collectionID, searchAfter);
    var results := SearchSvc.SearchResults(api, show, path, s);
    if results.err.Some? {
      return results.err, None;
    }
    var toWrite, e := FormatResultsObjects(viewFields, results.value.objects, other);
    if e.Some? {
      return e, None;
    }
    err := w.WriteAll(toWrite);
    if err.Some? {
      return err, None;
    }
    var objs := results.value.objects;
    if |objs| > 0 {
      var lastObject := objs[|objs| - 1];
      next := Some(lastObject.sort);
    } else {
      next := None;
    }
  }

  /** The pages of one export: the page after a search_after value, written with a given call number of the writer. */
  function Pages(api: SearchSvc.SearchApi, show: Json -> string, path: string, other: Json -> string,
                 viewFields: seq<ViewField>, collectionID: string, fails: nat -> MaybeError): (seq<Json>, nat) -> PageOutcome
  {
    (searchAfter: seq<Json>, writes: nat) =>
      ExportPage(api, show, path, other, viewFields, collectionID, searchAfter, fails, writes)
  }

  /** A page function whose pages lead on only when they end without error, as `ExportPage`'s do. */
  ghost predicate LeadsOnlyWithoutError(page: (seq<Json>, nat) -> PageOutcome)
  {
    forall searchAfter, writes :: page(searchAfter, writes).next.Some? ==> page(searchAfter, writes).err.None?
  }

  lemma PagesLeadOnlyWithoutError(api: SearchSvc.SearchApi, show: Json -> string, path: string, other: Json -> string,
                                  viewFields: seq<ViewField>, collectionID: string, fails: nat -> MaybeError)
    ensures LeadsOnlyWithoutError(Pages(api, show, path, other, viewFields, collectionID, fails))
  {
  }

  /** What an export did: the rows written, the search_after value of each page requested, the writes made and the error. */
  datatype Export = Export(rows: seq<seq<string>>, requests: seq<seq<Json>>, writes: nat, err: MaybeError)

  /**
   * The pages from `searchAfter` on, at most `fuel` of them, until a page
   * does not lead on; `writes` counts the writer's earlier calls.
   */
  function ExportFrom(page: (seq<Json>, nat) -> PageOutcome, searchAfter: seq<Json>, fuel: nat, writes: nat): (r: Export)
    decreases fuel
    ensures |r.requests| <= fuel && r.writes <= |r.requests|
    ensures fuel > 0 <==> |r.requests| >= 1
  {
    if fuel == 0 then Export([], [], 0, None)
    else
      var p := page(searchAfter, writes);
      if p.next.None? then Export(p.rows, [searchAfter], if p.written then 1 else 0, p.err)
      else
        var rest := ExportFrom(page, p.next.value, fuel - 1, writes + 1);
        Export(p.rows + rest.rows, [searchAfter] + rest.requests, rest.writes + 1, rest.err)
  }

  /**
   * `ProcessPage(viewFields, collectionID, searchAfter, w)`, allowed `fuel`
   * pages: one page, then the next page when this one had objects.
   */
  method ProcessPage(api: SearchSvc.SearchApi, show: Json -> string, path: string, other: Json -> string,
                     viewFields: seq<ViewField>, collectionID: string, searchAfter: seq<Json>, w: Sink, fuel: nat)
    returns (err: MaybeError)
    modifies w
    decreases fuel
    ensures var r := ExportFrom(Pages(api, show, path, other, viewFields, collectionID, w.fails), searchAfter, fuel,
                                old(w.writes));
      w.rows == old(w.rows) + r.rows && w.writes == old(w.writes) + r.writes && err == r.err
  {
    if fuel == 0 {
      return None;
    }
    ghost var page := Pages(api, show, path, other, viewFields, collectionID, w.fails);
    ghost var rows0, writes0 := w.rows, w.writes;
    ghost var p := page(searchAfter, writes0);
    var next;
    err, next := WritePage(api, show, path, other, viewFields, collectionID, searchAfter, w);
    if err.Some? || next.None? {
      return err;
    }
    ghost var rest := ExportFrom(page, next.value, fuel - 1, w.writes);
    assert ExportFrom(page, searchAfter, fuel, writes0) ==
           Export(p.rows + rest.rows, [searchAfter] + rest.requests, rest.writes + 1, rest.err);
    err := ProcessPage(api, show, path, other, viewFields, collectionID, next.value, w, fuel - 1);
    AppendAssoc(rows0, p.rows, rest.rows);
  }

  /** Appending in two steps appends the concatenation. */
  lemma AppendAssoc<T>(a: seq<T>, b: seq<T>, c: seq<T>)
    ensures (a + b) + c == a + (b + c)
  {
  }

  /** Every row has `n` cells. */
  predicate OfWidth(rows: seq<seq<string>>, n: nat)
  {
    forall k :: 0 <= k < |rows| ==> |rows[k]| == n
  }

  lemma OfWidthAppend(a: seq<seq<string>>, b: seq<seq<string>>, n: nat)
    requires OfWidth(a, n) && OfWidth(b, n)
    ensures OfWidth(a + b, n)
  {
    forall k | 0 <= k < |a + b|
      ensures |(a + b)[k]| == n
    {
      if k >= |a| {
        assert (a + b)[k] == b[k - |a|];
      }
    }
  }

  /** Every row an export of a view writes has the columns of the header row of that view. */
  lemma {:induction false} ExportRowsMatchHeader(api: SearchSvc.SearchApi, show: Json -> string, path: string,
                                                 other: Json -> string, viewFields: seq<ViewField>, collectionID: string,
                                                 fails: nat -> MaybeError, searchAfter: seq<Json>, fuel: nat, writes: nat)
    decreases fuel
    ensures OfWidth(ExportFrom(Pages(api, show, path, other, viewFields, collectionID, fails), searchAfter, fuel, writes).rows,
                    |HeaderRow(viewFields)|)
  {
    if fuel > 0 {
      var page := Pages(api, show, path, other, viewFields, collectionID, fails);
      var p := page(searchAfter, writes);
      assert OfWidth(p.rows, |HeaderRow(viewFields)|);
      if p.next.Some? {
        ExportRowsMatchHeader(api, show, path, other, viewFields, collectionID, fails, p.next.value, fuel - 1, writes + 1);
        OfWidthAppend(p.rows, ExportFrom(page, p.next.value, fuel - 1, writes + 1).rows, |HeaderRow(viewFields)|);
      }
    }
  }

  /**
   * search_after pagination: the first page requested is the one after
   * `searchAfter`, and each further page is the one the page before it
   * leads on to, written with the next call of the writer.
   */
  lemma {:induction false} ExportFollowsSort(page: (seq<Json>, nat) -> PageOutcome, searchAfter: seq<Json>, fuel: nat,
                                             writes: nat)
    decreases fuel
    ensures var r := ExportFrom(page, searchAfter, fuel, writes);
      (fuel > 0 ==> r.requests[0] == searchAfter) &&
      forall j :: 0 <= j < |r.requests| - 1 ==> page(r.requests[j], writes + j).next == Some(r.requests[j + 1])
  {
    if fuel > 0 {
      var p := page(searchAfter, writes);
      if p.next.Some? {
        ExportFollowsSort(page, p.next.value, fuel - 1, writes + 1);
        var rest := ExportFrom(page, p.next.value, fuel - 1, writes + 1);
        var r := ExportFrom(page, searchAfter, fuel, writes);
        assert r.requests == [searchAfter] + rest.requests;
        forall j | 0 <= j < |r.requests| - 1
          ensures page(r.requests[j], writes + j).next == Some(r.requests[j + 1])
        {
          if j > 0 {
            assert r.requests[j] == rest.requests[j - 1] && r.requests[j + 1] == rest.requests[j];
            assert writes + j == writes + 1 + (j - 1);
          } else {
            assert r.requests[1] == rest.requests[0];
          }
        }
      }
    }
  }

  /**
   * An export ends with its last page requested: its error is that page's
   * error, and when it ends without error before the fuel runs out, that
   * page does not lead on.
   */
  lemma {:induction false} ExportEndsAtError(page: (seq<Json>, nat) -> PageOutcome, searchAfter: seq<Json>, fuel: nat,
                                             writes: nat)
    requires LeadsOnlyWithoutError(page)
    decreases fuel
    ensures var r := ExportFrom(page, searchAfter, fuel, writes);
      var n := |r.requests|;
      n >= 1 ==>
        var last := page(r.requests[n - 1], writes + n - 1);
        r.err == last.err && (n < fuel ==> last.next.None?)
  {
    if fuel > 0 {
      var p := page(searchAfter, writes);
      if p.next.Some? {
        ExportEndsAtError(page, p.next.value, fuel - 1, writes + 1);
        var rest := ExportFrom(page, p.next.value, fuel - 1, writes + 1);
        var r := ExportFrom(page, searchAfter, fuel, writes);
        assert r.requests == [searchAfter] + rest.requests;
        if |rest.requests| > 0 {
          assert r.requests[|r.requests| - 1] == rest.requests[|rest.requests| - 1];
          assert writes + |r.requests| - 1 == writes + 1 + |rest.requests| - 1;
        }
      }
    }
  }
}
