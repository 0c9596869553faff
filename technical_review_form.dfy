/** The technical review form: the participants list cut out of one comma-separated input,
    and the list of custom review parameters with their type-dependent default values. */
module TechnicalReviewForm {
  import Js
  import Seqs

  // ---------------------------------------------------------------------------------------
  // Participants

  /** `participants.split(",").map(p => p.trim())`. */
  function Participants(text: string): (ps: seq<string>)
    ensures |ps| == |Js.Split(text, ',')|
    ensures forall i :: 0 <= i < |ps| ==> ps[i] == Js.Trim(Js.Split(text, ',')[i])
  {
    Seqs.Map(Js.Split(text, ','), Js.Trim)
  }

  /** One participant more than there are commas, each trimmed and none holding a comma;
      empty pieces stay as empty entries. */
  lemma {:induction false} ParticipantsFacts(text: string)
    ensures |Participants(text)| == Js.CountChar(text, ',') + 1
    ensures forall i :: 0 <= i < |Participants(text)| ==>
              Js.Trim(Participants(text)[i]) == Participants(text)[i] && ',' !in Participants(text)[i]
  {
    Js.SplitCount(text, ',');
    var pieces := Js.Split(text, ',');
    var ps := Participants(text);
    forall i | 0 <= i < |ps| ensures Js.Trim(ps[i]) == ps[i] && ',' !in ps[i] {
      Js.TrimIdempotent(pieces[i]);
      var a, b :| 0 <= a <= b <= |pieces[i]| && ps[i] == pieces[i][a..b];
      assert ',' !in pieces[i];
    }
  }

  /** Without a comma the whole input, trimmed, is the only participant. */
  lemma {:induction false} SingleParticipant(text: string)
    requires ',' !in text
    ensures Participants(text) == [Js.Trim(text)]
  {
  }

  // ---------------------------------------------------------------------------------------
  // Custom parameters

  /** The value of a parameter: a checkbox's flag, a slider's or number's value, a text, or
      the options of a select. */
  datatype FieldValue = BoolValue(b: bool) | NumValue(n: int) | TextValue(s: string) | ListValue(items: seq<string>)

  datatype CustomField = CustomField(fieldLabel: string, fieldType: string, value: FieldValue)

  /** `append({label: "", type: "checkbox", value: false})`. */
  const NewParameter := CustomField("", "checkbox", BoolValue(false))

  /** The value a parameter starts with after its type is chosen: `false` for a checkbox, 0
      for a slider or a number, and `""` for any other type. */
  function DefaultValue(fieldType: string): (v: FieldValue)
    ensures fieldType == "checkbox" <==> v == BoolValue(false)
    ensures fieldType in {"slider", "number"} <==> v == NumValue(0)
    ensures fieldType !in {"checkbox", "slider", "number"} <==> v == TextValue("")
  {
    if fieldType == "checkbox" then BoolValue(false)
    else if fieldType == "slider" || fieldType == "number" then NumValue(0)
    else TextValue("")
  }

  /** `update(idx, {...field, type: value, value: defaultValue})`. */
  function WithType(f: CustomField, fieldType: string): (g: CustomField)
    ensures g.fieldLabel == f.fieldLabel && g.fieldType == fieldType && g.value == DefaultValue(fieldType)
  {
    f.(fieldType := fieldType, value := DefaultValue(fieldType))
  }

  /** Choosing a type twice is choosing it once, and the value typed before is forgotten. */
  lemma {:induction false} WithTypeForgets(f: CustomField, v: FieldValue, t: string)
    ensures WithType(WithType(f, t), t) == WithType(f, t)
    ensures WithType(f.(value := v), t) == WithType(f, t)
  {
  }

  /** A select's option input: `e.target.value.split(",")`, without trimming. */
  function SelectOptions(text: string): (v: FieldValue)
    ensures v.ListValue? && v.items == Js.Split(text, ',')
  {
    ListValue(Js.Split(text, ','))
  }

  /** The text the select's input shows: the options joined with commas, or the value itself. */
  function SelectText(v: FieldValue): string {
    match v
    case ListValue(items) => Js.Join(items, ',')
    case TextValue(s) => s
    case BoolValue(b) => if b then "true" else "false"
    case NumValue(n) => Js.IntToString(n)
  }

  /** What is typed into a select's input is what it shows afterwards, spaces included, and it
      gives one option more than it has commas. */
  lemma {:induction false} SelectOptionsRoundTrip(text: string)
    ensures SelectText(SelectOptions(text)) == text
    ensures |SelectOptions(text).items| == Js.CountChar(text, ',') + 1
  {
    Js.JoinSplit(text, ',');
    Js.SplitCount(text, ',');
  }

  /** The list of a list without the entry at `idx`. */
  function Without(fields: seq<CustomField>, idx: nat): (r: seq<CustomField>)
    requires idx < |fields|
    ensures |r| == |fields| - 1
    ensures forall i :: 0 <= i < idx ==> r[i] == fields[i]
    ensures forall i :: idx <= i < |r| ==> r[i] == fields[i + 1]
  {
    fields[..idx] + fields[idx + 1..]
  }

  /** Every parameter holds a value of the kind its type calls for. */
  predicate WellTyped(f: CustomField) {
    match f.fieldType
    case "checkbox" => f.value.BoolValue?
    case "slider" => f.value.NumValue?
    case "number" => f.value.NumValue?
    case "select" => f.value.TextValue? || f.value.ListValue?
    case _ => f.value.TextValue?
  }

  /** A freshly typed parameter, and the new parameter, hold a value of their kind. */
  lemma {:induction false} DefaultsWellTyped(f: CustomField, t: string)
    ensures WellTyped(NewParameter)
    ensures WellTyped(WithType(f, t))
  {
  }

  /** The parameters of the form (`useFieldArray` over `customFields`). */
  class CustomFields {
    var fields: seq<CustomField>

    ghost predicate Valid()
      reads this
    {
      forall i :: 0 <= i < |fields| ==> WellTyped(fields[i])
    }

    constructor()
      ensures fields == [] && Valid()
    {
      fields := [];
    }

    /** "Add Parameter". */
    method Append()
      requires Valid()
      modifies this
      ensures Valid()
      ensures fields == old(fields) + [NewParameter]
    {
      DefaultsWellTyped(NewParameter, "checkbox");
      fields := fields + [NewParameter];
    }

    /** The parameter name input. */
    method SetLabel(idx: nat, fieldLabel: string)
      requires idx < |fields| && Valid()
      modifies this
      ensures Valid()
      ensures fields == old(fields)[idx := old(fields)[idx].(fieldLabel := fieldLabel)]
    {
      fields := fields[idx := fields[idx].(fieldLabel := fieldLabel)];
    }

    /** The type select: the new type with its default value, the label kept. */
    method ChangeType(idx: nat, fieldType: string)
      requires idx < |fields| && Valid()
      modifies this
      ensures Valid()
      ensures fields == old(fields)[idx := WithType(old(fields)[idx], fieldType)]
    {
      DefaultsWellTyped(fields[idx], fieldType);
      fields := fields[idx := WithType(fields[idx], fieldType)];
    }

    /** A select's options input. */
    method SetOptions(idx: nat, text: string)
      requires idx < |fields| && Valid() && fields[idx].fieldType == "select"
      modifies this
      ensures Valid()
      ensures fields == old(fields)[idx := old(fields)[idx].(value := SelectOptions(text))]
    {
      fields := fields[idx := fields[idx].(value := SelectOptions(text))];
    }

    /** The delete button. */
    method Remove(idx: nat)
      requires idx < |fields| && Valid()
      modifies this
      ensures Valid()
      ensures fields == Without(old(fields), idx)
    {
      fields := Without(fields, idx);
    }
  }
}
