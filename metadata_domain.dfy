/**
 * The metadata-view records (GET /API/metadata/v1/views/{id}/) and their
 * conversion to DTOs.
 */
module MetadataDomain {
  import opened Json

  /** The name iconik gives the purely visual separator fields of a view. */
  const Separator := "__separator__"

  datatype Option = Option(labelText: string, value: string)

  datatype ViewField = ViewField(
    name: string, labelText: string, fieldType: string, options: seq<Option>, readOnly: bool, required: bool)

  datatype Metadata = Metadata(name: string, description: string, viewFields: seq<ViewField>, errors: Json)

  datatype OptionDTO = OptionDTO(labelText: string, value: string)

  datatype ViewFieldDTO = ViewFieldDTO(
    name: string, labelText: string, fieldType: string, options: seq<OptionDTO>, readOnly: bool, required: bool)

  datatype DTO = DTO(name: string, description: string, viewFields: seq<ViewFieldDTO>, errors: Json)

  /** The empty DTO a failed call returns. */
  const EmptyDTO := DTO("", "", [], JNull)

  function ToOptionDTO(o: Option): (r: OptionDTO)
    ensures r.labelText == o.labelText
  {
    OptionDTO(o.labelText, o.value)
  }

  /** Both fields are copied. */
  lemma ToOptionDTOInjective(o: Option, p: Option)
    ensures ToOptionDTO(o) == ToOptionDTO(p) ==> o == p
  {
  }

  function ToViewFieldDTO(v: ViewField): (r: ViewFieldDTO)
    ensures r.name == v.name && r.labelText == v.labelText
    ensures |r.options| == |v.options|
    ensures forall i :: 0 <= i < |v.options| ==> r.options[i] == ToOptionDTO(v.options[i])
  {
    ViewFieldDTO(v.name, v.labelText, v.fieldType,
                 seq(|v.options|, i requires 0 <= i < |v.options| => ToOptionDTO(v.options[i])),
                 v.readOnly, v.required)
  }

  /** Name, Label, FieldType, ReadOnly, Required and every option survive the conversion. */
  lemma {:induction false} ToViewFieldDTOInjective(v: ViewField, w: ViewField)
    ensures ToViewFieldDTO(v) == ToViewFieldDTO(w) ==> v == w
  {
    if ToViewFieldDTO(v) == ToViewFieldDTO(w) {
      forall i | 0 <= i < |v.options| ensures v.options[i] == w.options[i] {
        ToOptionDTOInjective(v.options[i], w.options[i]);
      }
    }
  }

  function ToDTO(m: Metadata): (r: DTO)
    ensures r.name == m.name && r.description == m.description && r.errors == m.errors
    ensures |r.viewFields| == |m.viewFields|
    ensures forall i :: 0 <= i < |m.viewFields| ==> r.viewFields[i] == ToViewFieldDTO(m.viewFields[i])
    ensures forall i :: 0 <= i < |m.viewFields| ==> (r.viewFields[i].name == Separator <==> m.viewFields[i].name == Separator)
  {
    DTO(m.name, m.description,
        seq(|m.viewFields|, i requires 0 <= i < |m.viewFields| => ToViewFieldDTO(m.viewFields[i])),
        m.errors)
  }

  /** The view conversion loses nothing. */
  lemma {:induction false} ToDTOInjective(m: Metadata, n: Metadata)
    ensures ToDTO(m) == ToDTO(n) ==> m == n
  {
    if ToDTO(m) == ToDTO(n) {
      forall i | 0 <= i < |m.viewFields| ensures m.viewFields[i] == n.viewFields[i] {
        ToViewFieldDTOInjective(m.viewFields[i], n.viewFields[i]);
      }
    }
  }
}
