/**
 * What the import engines share: how a run stands after each row, and the
 * header test that opens every engine.
 */
module Runs {
  import opened Wrappers
  import Text
  import LabelRules
  import Utils
  import CsvDomain

  /** How a run stands: still going, ended by a returned error, or ended by a panic. */
  datatype Halt = Running | Failed(err: string) | Crashed

  /**
   * The test `headers[0] != expected[0] || headers[1] != expected[1] || ...`:
   * Some(true) when the headers start with `expected`, Some(false) when a
   * header differs, None for the index out of range a shorter header row
   * causes before any difference is seen.
   */
  function HeadersMatch(headers: seq<string>, expected: seq<string>): (r: Option<bool>)
    ensures r == Some(true) <==> |headers| >= |expected| && headers[..|expected|] == expected
    ensures r == None <==> |headers| < |expected| && headers == expected[..|headers|]
  {
    if |expected| == 0 then Some(true)
    else if |headers| == 0 then None
    else if headers[0] != expected[0] then Some(false)
    else match HeadersMatch(headers[1..], expected[1..])
      case None => assert headers == [headers[0]] + headers[1..]; None
      case Some(b) =>
        assert b ==> headers[..|expected|] == [headers[0]] + headers[1..][..|expected| - 1];
        Some(b)
  }

  /** The first piece of a cell that fails the schema check under `lbl`, as its error. */
  function FirstInvalid(lbl: string, pieces: seq<string>): (r: MaybeError)
    ensures r == None <==> forall i :: 0 <= i < |pieces| ==> LabelRules.ValidateSchema(lbl, pieces[i]) == None
  {
    if |pieces| == 0 then None
    else match LabelRules.ValidateSchema(lbl, pieces[0])
      case Some(e) => Some(e)
      case None => FirstInvalid(lbl, pieces[1..])
  }

  /** The schema-check loop over the pieces of one cell: stops at the first failure. */
  method CheckPieces(lbl: string, pieces: seq<string>) returns (err: MaybeError)
    ensures err == FirstInvalid(lbl, pieces)
  {
    var i := 0;
    while i < |pieces|
      invariant i <= |pieces|
      invariant FirstInvalid(lbl, pieces) == FirstInvalid(lbl, pieces[i..])
    {
      err := LabelRules.ValidateSchema(lbl, pieces[i]);
      if err != None {
        return;
      }
      assert pieces[i..][1..] == pieces[i + 1..];
      i := i + 1;
    }
    return None;
  }

  /**
   * Which metadata cells a row engine sends: pkg/iconikio and the CSV reader
   * service skip a cell whose pieces are all blank; the input service sends
   * only a cell that splits into more than one piece.
   */
  datatype CellRule = SkipBlank | SkipSingle

  predicate Kept(rule: CellRule, pieces: seq<string>)
  {
    match rule
    case SkipBlank => !Utils.IsBlank(pieces)
    case SkipSingle => |pieces| > 1
  }

  /**
   * The metadata cells of a row, read so far: the values gathered, and
   * whether reading stopped at a piece that failed the schema check or at a
   * column with no entry in the names or labels row (an index out of range).
   */
  datatype Cells = CellsOk(values: map<string, CsvDomain.FieldValues>)
                 | CellsFailed(values: map<string, CsvDomain.FieldValues>, err: string)
                 | CellsCrashed(values: map<string, CsvDomain.FieldValues>)

  /** The comma-separated pieces of cell `c` of the row. */
  function Pieces(row: seq<string>, c: nat): seq<string>
    requires c < |row|
  {
    Text.Split(row[c], ',')
  }

  /** One metadata column: a cell the rule skips adds nothing; otherwise every piece is checked and all are kept. */
  function Cell(values: map<string, CsvDomain.FieldValues>, row: seq<string>, names: seq<string>, labels: seq<string>,
                c: nat, rule: CellRule): Cells
    requires c < |row|
  {
    if c >= |names| || c >= |labels| then CellsCrashed(values)
    else if !Kept(rule, Pieces(row, c)) then CellsOk(values)
    else match FirstInvalid(labels[c], Pieces(row, c))
      case Some(e) => CellsFailed(values, e)
      case None => CellsOk(values[names[c] := Pieces(row, c)])
  }

  /** The metadata columns first .. c-1 of a row, read in order until the first stop. */
  function CellsUpTo(row: seq<string>, names: seq<string>, labels: seq<string>, first: nat, c: nat, rule: CellRule): Cells
    requires first <= c <= |row|
  {
    if c == first then CellsOk(map[])
    else match CellsUpTo(row, names, labels, first, c - 1, rule)
      case CellsOk(values) => Cell(values, row, names, labels, c - 1, rule)
      case stopped => stopped
  }

  /** The test of a cell's pieces: the blank scan, or the piece count. */
  method KeepCell(rule: CellRule, pieces: seq<string>) returns (kept: bool)
    ensures kept == Kept(rule, pieces)
  {
    match rule {
      case SkipBlank =>
        var blank := Utils.IsBlankStringArray(pieces);
        kept := !blank;
      case SkipSingle =>
        kept := |pieces| > 1;
    }
  }

  /** One metadata column of the loop: the index check, the rule's skip test, then the schema check of every piece. */
  method ReadCell(values: map<string, CsvDomain.FieldValues>, row: seq<string>, names: seq<string>, labels: seq<string>,
                  c: nat, rule: CellRule) returns (cells: Cells)
    requires c < |row|
    ensures cells == Cell(values, row, names, labels, c, rule)
  {
    if c >= |names| || c >= |labels| {
      return CellsCrashed(values);
    }
    var valueArr := Text.Split(row[c], ',');
    var kept := KeepCell(rule, valueArr);
    if !kept {
      return CellsOk(values);
    }
    var err := CheckPieces(labels[c], valueArr);
    if err != None {
      return CellsFailed(values, err.value);
    }
    return CellsOk(values[names[c] := valueArr]);
  }

  /** The metadata loop of a row, from column `first` on. */
  method CollectCells(row: seq<string>, names: seq<string>, labels: seq<string>, first: nat, rule: CellRule) returns (cells: Cells)
    requires first <= |row|
    ensures cells == CellsUpTo(row, names, labels, first, |row|, rule)
  {
    var values: map<string, CsvDomain.FieldValues> := map[];
    var count := first;
    while count < |row|
      invariant first <= count <= |row|
      invariant CellsUpTo(row, names, labels, first, count, rule) == CellsOk(values)
    {
      var cell := ReadCell(values, row, names, labels, count, rule);
      CellsNext(row, names, labels, first, count, rule, values);
      if !cell.CellsOk? {
        CellsStop(row, names, labels, first, count + 1, |row|, rule);
        return cell;
      }
      values := cell.values;
      count := count + 1;
    }
    return CellsOk(values);
  }

  /** One more column of a row whose earlier columns were all read. */
  lemma CellsNext(row: seq<string>, names: seq<string>, labels: seq<string>, first: nat, c: nat, rule: CellRule,
                  values: map<string, CsvDomain.FieldValues>)
    requires first <= c < |row|
    requires CellsUpTo(row, names, labels, first, c, rule) == CellsOk(values)
    ensures CellsUpTo(row, names, labels, first, c + 1, rule) == Cell(values, row, names, labels, c, rule)
  {
  }

  /** Once the metadata loop has stopped, later columns change nothing. */
  lemma {:induction false} CellsStop(row: seq<string>, names: seq<string>, labels: seq<string>, first: nat, c: nat, d: nat, rule: CellRule)
    requires first <= c <= d <= |row|
    requires !CellsUpTo(row, names, labels, first, c, rule).CellsOk?
    ensures CellsUpTo(row, names, labels, first, d, rule) == CellsUpTo(row, names, labels, first, c, rule)
  {
    if c < d {
      CellsStop(row, names, labels, first, c, d - 1, rule);
    }
  }

  /**
   * When the metadata cells of a row are all read, every cell the rule keeps
   * has put its pieces under its column's name and every piece passed the
   * schema check for its column's label, and every name in the result comes
   * from such a cell.
   */
  lemma {:induction false} CellsRead(row: seq<string>, names: seq<string>, labels: seq<string>, first: nat, c: nat, rule: CellRule)
    requires first <= c <= |row|
    requires CellsUpTo(row, names, labels, first, c, rule).CellsOk?
    ensures c > first ==> c <= |names| && c <= |labels|
    ensures forall j :: first <= j < c && Kept(rule, Pieces(row, j)) ==>
      names[j] in CellsUpTo(row, names, labels, first, c, rule).values &&
      forall t :: 0 <= t < |Pieces(row, j)| ==> LabelRules.ValidateSchema(labels[j], Pieces(row, j)[t]) == None
    ensures forall key :: key in CellsUpTo(row, names, labels, first, c, rule).values ==>
      exists j :: first <= j < c && j < |names| && names[j] == key && Kept(rule, Pieces(row, j)) &&
        CellsUpTo(row, names, labels, first, c, rule).values[key] == Pieces(row, j)
  {
    if c > first {
      CellsRead(row, names, labels, first, c - 1, rule);
    }
  }

  /** Every value the metadata loop gathered comes from a cell the rule keeps. */
  lemma CellsKept(row: seq<string>, names: seq<string>, labels: seq<string>, first: nat, c: nat, rule: CellRule)
    requires first <= c <= |row|
    requires CellsUpTo(row, names, labels, first, c, rule).CellsOk?
    ensures forall key :: key in CellsUpTo(row, names, labels, first, c, rule).values ==>
      Kept(rule, CellsUpTo(row, names, labels, first, c, rule).values[key])
  {
    var values := CellsUpTo(row, names, labels, first, c, rule).values;
    CellsRead(row, names, labels, first, c, rule);
    forall key | key in values
      ensures Kept(rule, values[key])
    {
      var j :| first <= j < c && j < |names| && names[j] == key && Kept(rule, Pieces(row, j)) && values[key] == Pieces(row, j);
    }
  }

  /** The calls a run makes: the title update and the metadata update of an asset. */
  datatype Call = TitleCall(assetID: string, title: string)
                | MetadataCall(assetID: string, values: map<string, CsvDomain.FieldValues>)

  /**
   * The shape of the calls of a run: each metadata update comes right after
   * the title update of the same asset, and holds only cells the rule keeps.
   */
  predicate CallsInPairs(calls: seq<Call>, rule: CellRule)
  {
    forall i :: 0 <= i < |calls| && calls[i].MetadataCall? ==>
      i > 0 && calls[i - 1].TitleCall? && calls[i - 1].assetID == calls[i].assetID &&
      forall key :: key in calls[i].values ==> Kept(rule, calls[i].values[key])
  }

  /** How many title updates a sequence of calls holds. */
  function TitleCalls(calls: seq<Call>): nat
  {
    if calls == [] then 0
    else TitleCalls(calls[..|calls| - 1]) + if calls[|calls| - 1].TitleCall? then 1 else 0
  }

  lemma TitleCallsAppend(calls: seq<Call>, c: Call)
    ensures TitleCalls(calls + [c]) == TitleCalls(calls) + if c.TitleCall? then 1 else 0
  {
    assert (calls + [c])[..|calls|] == calls;
  }
}
