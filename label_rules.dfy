/**
 * The label-keyed validation table and its check, present three times in the
 * repository with identical content (utils/validate.go, the validate service
 * and pkg/iconikio/validate.go). A header that is not a key passes; an empty
 * list of valid values means "must be an integer"; otherwise the value must
 * equal one of the listed strings exactly.
 */
module LabelRules {
  import opened Wrappers
  import Text

  const BoolValues: seq<string> := ["true", "false"]
  const FrameRates: seq<string> := ["23.976", "23.98", "24", "25", "29.97", "30", "50", "59.94", "60"]
  const FrameRateModes: seq<string> := ["Constant", "Variable"]
  const AIProcesses: seq<string> := ["Transcription", "Object Recognition", "Sports Classification"]
  const ContentCategories: seq<string> :=
    ["Demo Content", "Case Studies", "Promotional", "Projects", "Internal", "Miscellaneous"]

  /** The label whose empty value list means "integer". */
  const ArchiveDelay := "Archive Delay, days"

  /** `validationRules`: header label to the list of valid values. */
  const ValidationRules: map<string, seq<string>> := map[
    "Signed off" := BoolValues,
    "Archived" := BoolValues,
    "Can not be share" := BoolValues,
    "SAP Product Asset" := BoolValues,
    "Frame Rate" := FrameRates,
    "Audio Frame Rate" := FrameRates,
    "Frame Rate Mode" := FrameRateModes,
    "AI Process" := AIProcesses,
    "Content Categories" := ContentCategories,
    ArchiveDelay := []
  ]

  function IntegerMessage(header: string, val: string): string
  {
    "for " + header + " the value must be set to an integer. The value is currently set to: " + val
  }

  function InvalidMessage(header: string, valid: seq<string>, val: string): string
  {
    "invalid value for " + header + ". Valid values are: " + Text.Join(valid, ", ")
      + ". The value is currently set to: " + val
  }

  /** The first index at which `val` occurs in `values`, if any (the search loop). */
  function IndexOf(values: seq<string>, val: string): (r: Option<nat>)
    ensures r.Some? ==> r.value < |values| && values[r.value] == val
    ensures r.None? <==> val !in values
  {
    if |values| == 0 then None
    else if values[0] == val then Some(0)
    else match IndexOf(values[1..], val)
      case None => None
      case Some(k) => Some(k + 1)
  }

  /** `ValidateSchema(header, val)`: nil (None) when the pair passes, else the message. */
  function ValidateSchema(header: string, val: string): (r: MaybeError)
    ensures header !in ValidationRules ==> r == None
    ensures header in ValidationRules && ValidationRules[header] == [] ==>
              (r == None <==> Text.AtoiAccepts(val))
    ensures header in ValidationRules && ValidationRules[header] != [] ==>
              (r == None <==> val in ValidationRules[header])
  {
    if header !in ValidationRules then None
    else
      var valid := ValidationRules[header];
      if |valid| == 0 then
        if Text.AtoiAccepts(val) then None else Some(IntegerMessage(header, val))
      else if IndexOf(valid, val).Some? then None
      else Some(InvalidMessage(header, valid, val))
  }

  /** The ten entries of the table, looked up one by one. */
  lemma TableEntries()
    ensures ValidationRules["Signed off"] == BoolValues && ValidationRules["Archived"] == BoolValues
    ensures ValidationRules["Can not be share"] == BoolValues
    ensures ValidationRules["SAP Product Asset"] == BoolValues
    ensures ValidationRules["Frame Rate"] == FrameRates && ValidationRules["Audio Frame Rate"] == FrameRates
    ensures ValidationRules["Frame Rate Mode"] == FrameRateModes
    ensures ValidationRules["AI Process"] == AIProcesses
    ensures ValidationRules["Content Categories"] == ContentCategories
    ensures ValidationRules[ArchiveDelay] == []
  {
  }

  /** Only the integer rule has an empty value list. */
  lemma OnlyArchiveDelayIsInteger(header: string)
    requires header in ValidationRules
    ensures ValidationRules[header] == [] <==> header == ArchiveDelay
  {
  }

  /** The comparison is case-sensitive: upper-case booleans fail every boolean label. */
  lemma UpperCaseBooleansFail(header: string)
    requires header in ValidationRules && ValidationRules[header] == BoolValues
    ensures ValidateSchema(header, "TRUE").Some? && ValidateSchema(header, "FALSE").Some?
  {
    assert "TRUE" !in BoolValues by { assert "TRUE"[0] != "true"[0] && "TRUE"[0] != "false"[0]; }
    assert "FALSE" !in BoolValues by { assert "FALSE"[0] != "true"[0] && "FALSE"[0] != "false"[0]; }
  }

  /**
   * A rejection names the header and lists the valid values joined with ", "
   * in table order, or asks for an integer.
   */
  lemma RejectionMessage(header: string, val: string)
    requires ValidateSchema(header, val).Some?
    ensures header in ValidationRules
    ensures ValidationRules[header] != [] ==>
              ValidateSchema(header, val).value == InvalidMessage(header, ValidationRules[header], val)
    ensures ValidationRules[header] == [] ==>
              ValidateSchema(header, val).value == IntegerMessage(header, val)
  {
  }

  /** The integer rule accepts exactly what strconv.Itoa can print. */
  lemma ArchiveDelayAcceptsEveryInteger(n: int)
    ensures ValidateSchema(ArchiveDelay, Text.Itoa(n)) == None
  {
    Text.ItoaAtoi(n);
  }
}
