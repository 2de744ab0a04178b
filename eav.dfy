/** The text form of an entity-attribute-value row, `EAVBase.__unicode__`
    in cyder/base/eav/models.py: a format chosen by the attribute type and
    quoting chosen by the value type. */
module Eav {
  import opened Strings

  /** The three attribute types and their choices in the model field. */
  datatype AttributeType = Informational | OptionType | Statement

  datatype Attribute = Attribute(name: string, attributeType: AttributeType, valueType: string)

  /** Whether the value is wrapped in double quotes; `isHexByteSequence`
      stands for `cyder.base.eav.utils.is_hex_byte_sequence`. */
  function AddQuotes(valueType: string, value: string, isHexByteSequence: string -> bool): bool
  {
    if valueType == "string" then !isHexByteSequence(value)
    else if valueType == "text" then true
    else false
  }

  /** `u'"{0}"'.format(value)` or `u'{0}'.format(value)`. */
  function QuotedValue(value: string, addQuotes: bool): string
  {
    if addQuotes then "\"" + value + "\"" else value
  }

  /** The part of the text before the value, from `kv_formats`. */
  function Prefix(attribute: Attribute): string
  {
    match attribute.attributeType
    case Informational => attribute.name + " = "
    case OptionType => "option " + attribute.name + " "
    case Statement => attribute.name + " "
  }

  /** `EAVBase.__unicode__`. */
  function Render(attribute: Attribute, value: string, isHexByteSequence: string -> bool): string
  {
    Prefix(attribute) + QuotedValue(value, AddQuotes(attribute.valueType, value, isHexByteSequence))
  }

  /** 'text' values are always quoted, 'string' values exactly when they are
      not hex byte sequences, and values of any other type never. */
  lemma QuotingRules(valueType: string, value: string, isHexByteSequence: string -> bool)
    ensures valueType == "text" ==> AddQuotes(valueType, value, isHexByteSequence)
    ensures valueType == "string" ==> (AddQuotes(valueType, value, isHexByteSequence) <==> !isHexByteSequence(value))
    ensures valueType != "text" && valueType != "string" ==> !AddQuotes(valueType, value, isHexByteSequence)
  {
  }

  /** What the rendered row shows: a 'text' value always between double
      quotes, a 'string' value bare exactly when it is a hex byte sequence,
      and a value of any other type always bare. */
  lemma RenderQuoting(attribute: Attribute, value: string, isHexByteSequence: string -> bool)
    ensures attribute.valueType == "text" ==>
            Render(attribute, value, isHexByteSequence) == Prefix(attribute) + "\"" + value + "\""
    ensures attribute.valueType == "string" ==>
            (Render(attribute, value, isHexByteSequence) == Prefix(attribute) + value <==> isHexByteSequence(value))
    ensures attribute.valueType != "text" && attribute.valueType != "string" ==>
            Render(attribute, value, isHexByteSequence) == Prefix(attribute) + value
  {
    QuotingRules(attribute.valueType, value, isHexByteSequence);
    var r := Render(attribute, value, isHexByteSequence);
    if attribute.valueType == "string" && !isHexByteSequence(value) {
      assert |r| == |Prefix(attribute) + value| + 2;
    }
  }

  /** Quoting adds one '"' on each side and changes nothing else. */
  lemma QuotingIsWrapping(value: string)
    ensures var q := QuotedValue(value, true);
            |q| == |value| + 2 && q[0] == '"' && q[|q| - 1] == '"' && q[1..|q| - 1] == value
  {
    var q := QuotedValue(value, true);
    assert q[1..|q| - 1] == value;
  }

  /** The text is the prefix of the attribute type followed by the value,
      quoted or not; stripping the prefix and any quotes gives the value
      back. */
  lemma RenderSplits(attribute: Attribute, value: string, isHexByteSequence: string -> bool)
    ensures var r := Render(attribute, value, isHexByteSequence);
            var quoted := AddQuotes(attribute.valueType, value, isHexByteSequence);
            StartsWith(r, Prefix(attribute)) &&
            r[|Prefix(attribute)|..] == QuotedValue(value, quoted) &&
            (quoted ==> r[|Prefix(attribute)| + 1..|r| - 1] == value) &&
            (!quoted ==> r[|Prefix(attribute)|..] == value)
  {
    var r := Render(attribute, value, isHexByteSequence);
    var p := Prefix(attribute);
    var v := QuotedValue(value, AddQuotes(attribute.valueType, value, isHexByteSequence));
    assert r == p + v;
    assert r[..|p|] == p;
    assert r[|p|..] == v;
    if AddQuotes(attribute.valueType, value, isHexByteSequence) {
      assert r[|p| + 1..|r| - 1] == v[1..|v| - 1];
      QuotingIsWrapping(value);
    }
  }

  /** For example, a 'text' option "domain-name" with value foo renders as
      `option domain-name "foo"`. */
  lemma RenderExample(isHexByteSequence: string -> bool)
    ensures Render(Attribute("domain-name", OptionType, "text"), "foo", isHexByteSequence) == "option domain-name \"foo\""
  {
  }
}
