/**
 * The if-chain validator keyed by machine field names, present twice with the
 * same rules: pkg/validate/validate.go (messages start "for") and
 * pkg/reader/reader.go (messages start "For"). The generation is chosen by the
 * message prefix.
 */
module MachineRules {
  import opened Wrappers
  import Text
  import LabelRules

  /** The message prefix of each generation. */
  const ValidatePrefix := "for"
  const ReaderPrefix := "For"

  const BoolHeaders: set<string> := {"Signedoff", "win_Archived", "ShareNo", "bmc_sapProductAssetOnly"}
  const FrameRateHeaders: set<string> := {"pdTest_FrameRate", "pdTest_AudioFrameRate"}
  const FrameRateMode := "pdTest_FrameRateMode"
  const AIProcess := "AIProcess"
  const ContentCategories := "ContentCategories"
  const ArchiveDelay := "win_ArchiveDelay"

  /** Every header some rule is keyed by. */
  const RuleHeaders: set<string> :=
    BoolHeaders + FrameRateHeaders + {FrameRateMode, AIProcess, ContentCategories, ArchiveDelay}

  /** What the validator returns: the header, the (possibly normalised) value and the error. */
  datatype Checked = Checked(header: string, value: string, err: MaybeError)

  /** The rules of the chain, in source order. */
  datatype Rule = BoolRule | FrameRateRule | ModeRule | AIProcessRule | CategoryRule | IntegerRule

  /** What the message says the value must be. */
  function Requirement(rule: Rule): string
  {
    match rule
    case BoolRule => "either be set to true or false"
    case FrameRateRule => "either be set to 23.976, 23.98, 24, 25, 29.97, 30, 50, 59.94 or 60"
    case ModeRule => "either be set to Constant or Variable"
    case AIProcessRule => "either be set to Transcription, Object Recognition or Sports Classification"
    case CategoryRule =>
      "either be set to Demo Content, Case Studies, Promotional, Projects, Internal or Miscellaneous"
    case IntegerRule => "be set to an integer"
  }

  /** Whether a value satisfies one of the rules after the boolean step. */
  predicate Passes(rule: Rule, v: string)
  {
    match rule
    case BoolRule => v in LabelRules.BoolValues
    case FrameRateRule => v in LabelRules.FrameRates
    case ModeRule => v in LabelRules.FrameRateModes
    case AIProcessRule => v in LabelRules.AIProcesses
    case CategoryRule => v in LabelRules.ContentCategories
    case IntegerRule => Text.AtoiAccepts(v)
  }

  function Message(prefix: string, header: string, rule: Rule, val: string): string
  {
    prefix + " " + header + " the value must " + Requirement(rule) + ". The value is currently set to: " + val
  }

  function Fail(prefix: string, header: string, rule: Rule, val: string): Checked
  {
    Checked(header, val, Some(Message(prefix, header, rule, val)))
  }

  /** The boolean rule: TRUE/FALSE are lowered, true/false kept, anything else fails. */
  function NormaliseBool(val: string): Option<string>
  {
    if val == "TRUE" then Some("true")
    else if val == "FALSE" then Some("false")
    else if val == "true" || val == "false" then Some(val)
    else None
  }

  /** No later rule is keyed by a boolean header. */
  lemma BoolHeadersApart(h: string)
    requires h in BoolHeaders
    ensures h !in FrameRateHeaders && h != FrameRateMode && h != AIProcess
    ensures h != ContentCategories && h != ArchiveDelay
  {
  }

  /** The single-header rules are keyed by headers no other rule uses. */
  lemma KeysApart()
    ensures FrameRateMode !in BoolHeaders + FrameRateHeaders
    ensures AIProcess !in BoolHeaders + FrameRateHeaders + {FrameRateMode}
    ensures ContentCategories !in BoolHeaders + FrameRateHeaders + {FrameRateMode, AIProcess}
    ensures ArchiveDelay !in BoolHeaders + FrameRateHeaders + {FrameRateMode, AIProcess, ContentCategories}
  {
  }

  /** The checks after the boolean step, applied to the value that step produced. */
  function LaterRules(prefix: string, header: string, v: string): (r: Checked)
    ensures r.header == header && r.value == v
  {
    if header in FrameRateHeaders && !Passes(FrameRateRule, v) then Fail(prefix, header, FrameRateRule, v)
    else if header == FrameRateMode && !Passes(ModeRule, v) then Fail(prefix, header, ModeRule, v)
    else if header == AIProcess && !Passes(AIProcessRule, v) then Fail(prefix, header, AIProcessRule, v)
    else if header == ContentCategories && !Passes(CategoryRule, v) then Fail(prefix, header, CategoryRule, v)
    else if header == ArchiveDelay && !Passes(IntegerRule, v) then Fail(prefix, header, IntegerRule, v)
    else Checked(header, v, None)
  }

  /** `SchemaValidator(header, val)` of the generation whose messages start with `prefix`. */
  function SchemaValidator(prefix: string, header: string, val: string): (r: Checked)
    ensures r.header == header
    ensures r.err.Some? ==> r.value == val
    ensures header !in RuleHeaders ==> r == Checked(header, val, None)
  {
    if header in BoolHeaders then
      match NormaliseBool(val)
      case None => Fail(prefix, header, BoolRule, val)
      case Some(v) => BoolHeadersApart(header); LaterRules(prefix, header, v)
    else LaterRules(prefix, header, val)
  }

  /** The boolean headers: exactly TRUE, FALSE, true and false pass, and come back lower-case. */
  lemma BooleanRule(prefix: string, header: string, val: string)
    requires header in BoolHeaders
    ensures SchemaValidator(prefix, header, val).err == None <==> val in {"TRUE", "FALSE", "true", "false"}
    ensures val == "TRUE" ==> SchemaValidator(prefix, header, val).value == "true"
    ensures val == "FALSE" ==> SchemaValidator(prefix, header, val).value == "false"
    ensures val in {"true", "false"} ==> SchemaValidator(prefix, header, val).value == val
  {
    BoolHeadersApart(header);
    match NormaliseBool(val)
    case None =>
    case Some(v) =>
      assert LaterRules(prefix, header, v) == Checked(header, v, None);
  }

  /** The other enumerated headers accept exactly their listed strings and never rewrite them. */
  lemma EnumeratedRules(prefix: string, header: string, val: string)
    ensures header in FrameRateHeaders ==>
              (SchemaValidator(prefix, header, val).err == None <==> val in LabelRules.FrameRates)
    ensures header == FrameRateMode ==>
              (SchemaValidator(prefix, header, val).err == None <==> val in LabelRules.FrameRateModes)
    ensures header == AIProcess ==>
              (SchemaValidator(prefix, header, val).err == None <==> val in LabelRules.AIProcesses)
    ensures header == ContentCategories ==>
              (SchemaValidator(prefix, header, val).err == None <==> val in LabelRules.ContentCategories)
    ensures header == ArchiveDelay ==>
              (SchemaValidator(prefix, header, val).err == None <==> Text.AtoiAccepts(val))
    ensures header !in BoolHeaders ==> SchemaValidator(prefix, header, val).value == val
  {
    KeysApart();
  }

  /**
   * The two generations differ only in the capital letter opening their
   * messages: they accept the same pairs and return the same value.
   */
  lemma GenerationsAgree(header: string, val: string)
    ensures SchemaValidator(ValidatePrefix, header, val).err.None?
            <==> SchemaValidator(ReaderPrefix, header, val).err.None?
    ensures SchemaValidator(ValidatePrefix, header, val).value
            == SchemaValidator(ReaderPrefix, header, val).value
  {
  }

  /** The label that sits at the same position of the label-keyed table as each machine name. */
  function LabelOf(header: string): string
    requires header in RuleHeaders
  {
    if header == "Signedoff" then "Signed off"
    else if header == "win_Archived" then "Archived"
    else if header == "ShareNo" then "Can not be share"
    else if header == "bmc_sapProductAssetOnly" then "SAP Product Asset"
    else if header == "pdTest_FrameRate" then "Frame Rate"
    else if header == "pdTest_AudioFrameRate" then "Audio Frame Rate"
    else if header == FrameRateMode then "Frame Rate Mode"
    else if header == AIProcess then "AI Process"
    else if header == ContentCategories then "Content Categories"
    else LabelRules.ArchiveDelay
  }

  /** The valid values the label-keyed table lists for the label paired with `header`. */
  lemma PairedEntry(header: string)
    requires header in RuleHeaders
    ensures LabelOf(header) in LabelRules.ValidationRules
    ensures header in BoolHeaders ==> LabelRules.ValidationRules[LabelOf(header)] == LabelRules.BoolValues
    ensures header in FrameRateHeaders ==> LabelRules.ValidationRules[LabelOf(header)] == LabelRules.FrameRates
    ensures header == FrameRateMode ==> LabelRules.ValidationRules[LabelOf(header)] == LabelRules.FrameRateModes
    ensures header == AIProcess ==> LabelRules.ValidationRules[LabelOf(header)] == LabelRules.AIProcesses
    ensures header == ContentCategories ==>
              LabelRules.ValidationRules[LabelOf(header)] == LabelRules.ContentCategories
    ensures header == ArchiveDelay ==> LabelOf(header) == LabelRules.ArchiveDelay
  {
    KeysApart();
    LabelRules.TableEntries();
  }

  /** `AgreesWithLabelTable` for the boolean headers. */
  lemma AgreesOnBooleans(prefix: string, header: string, val: string)
    requires header in BoolHeaders
    ensures SchemaValidator(prefix, header, val).err == None ==>
              LabelRules.ValidateSchema(LabelOf(header), SchemaValidator(prefix, header, val).value) == None
    ensures LabelRules.ValidateSchema(LabelOf(header), val) == None ==>
              SchemaValidator(prefix, header, val) == Checked(header, val, None)
  {
    PairedEntry(header);
    BooleanRule(prefix, header, val);
    var r := SchemaValidator(prefix, header, val);
    if r.err == None {
      assert r.value in LabelRules.BoolValues;
    }
  }

  /** `AgreesWithLabelTable` for the headers of the later rules. */
  lemma AgreesOnLaterRules(prefix: string, header: string, val: string)
    requires header in RuleHeaders && header !in BoolHeaders
    ensures SchemaValidator(prefix, header, val).err == None ==>
              LabelRules.ValidateSchema(LabelOf(header), SchemaValidator(prefix, header, val).value) == None
    ensures LabelRules.ValidateSchema(LabelOf(header), val) == None ==>
              SchemaValidator(prefix, header, val) == Checked(header, val, None)
  {
    var r := SchemaValidator(prefix, header, val);
    var lbl := LabelOf(header);
    PairedEntry(header);
    EnumeratedRules(prefix, header, val);
    assert r.header == header && r.value == val;
    if header == ArchiveDelay {
      LabelRules.TableEntries();
      assert r.err == None <==> Text.AtoiAccepts(val);
    } else {
      var valid := LabelRules.ValidationRules[lbl];
      assert valid != [] && (r.err == None <==> val in valid) by {
        if header in FrameRateHeaders {
          assert valid == LabelRules.FrameRates;
        } else if header == FrameRateMode {
          assert valid == LabelRules.FrameRateModes;
        } else if header == AIProcess {
          assert valid == LabelRules.AIProcesses;
        } else {
          assert valid == LabelRules.ContentCategories;
        }
      }
    }
    assert r.err == None <==> LabelRules.ValidateSchema(lbl, val) == None;
  }

  /**
   * Against the label-keyed table under the same-position pairing: whatever
   * the if-chain accepts it turns into a value the table accepts, and the
   * if-chain accepts everything the table does. The only pairs the two
   * generations disagree on are the upper-case booleans.
   */
  lemma AgreesWithLabelTable(prefix: string, header: string, val: string)
    requires header in RuleHeaders
    ensures SchemaValidator(prefix, header, val).err == None ==>
              LabelRules.ValidateSchema(LabelOf(header), SchemaValidator(prefix, header, val).value) == None
    ensures LabelRules.ValidateSchema(LabelOf(header), val) == None ==>
              SchemaValidator(prefix, header, val) == Checked(header, val, None)
  {
    if header in BoolHeaders {
      AgreesOnBooleans(prefix, header, val);
    } else {
      AgreesOnLaterRules(prefix, header, val);
    }
  }
}
