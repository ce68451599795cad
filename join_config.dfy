/**
 * The configuration form of a join definition: the `join` element written by
 * `writeXmlConfig` and read back by the XML constructor.
 */
module JoinConfig {
  import opened Wrappers
  import opened JavaLang
  import opened JoinTypes

  const NodeNameJoin: string := "join"
  const AttrIndexName: string := "indexName"
  const AttrQueryTemplate: string := "queryTemplate"
  const AttrLocalField: string := "localField"
  const AttrForeignField: string := "foreignField"
  const AttrReturnFields: string := "returnFields"
  const AttrReturnScores: string := "returnScores"
  const AttrReturnFacets: string := "returnFacets"
  const AttrType: string := "type"

  /** One XML element: its name, its attributes and its text content ("" when it has none). */
  datatype XmlElement = XmlElement(name: string, attributes: map<string, string>, text: string)

  /** The serialised fields of a join definition. */
  datatype JoinDefinition = JoinDefinition(
    indexName: JString,
    queryTemplate: JString,
    queryString: JString,
    localField: JString,
    foreignField: JString,
    returnFields: bool,
    returnScores: bool,
    returnFacets: bool,
    joinType: JoinType)

  /** Adds attribute `name` when `value` is non-null; a null value writes no attribute. */
  function WithAttribute(attributes: map<string, string>, name: string, value: JString): (r: map<string, string>)
    ensures name in r <==> value.Some? || name in attributes
    ensures value.Some? ==> r[name] == value.value
    ensures forall n :: n != name && n in attributes ==> n in r && r[n] == attributes[n]
    ensures forall n :: n in r && n != name ==> n in attributes
  {
    if value.Some? then attributes[name := value.value] else attributes
  }

  /** `XPathParser.getAttributeString(node, name)`: the attribute's value, or null when absent. */
  function AttributeString(node: XmlElement, name: string): JString {
    if name in node.attributes then Some(node.attributes[name]) else None
  }

  /**
   * `writeXmlConfig`: a `join` element, every scalar as an attribute and the
   * query string as text; a null query string writes no text.
   */
  function WriteXmlConfig(d: JoinDefinition): (e: XmlElement)
    ensures e.name == NodeNameJoin
    ensures e.text == d.queryString.GetOr("")
  {
    var attributes :=
      WithAttribute(
      WithAttribute(
      WithAttribute(
      WithAttribute(
      WithAttribute(
      WithAttribute(
      WithAttribute(
      WithAttribute(map[],
        AttrIndexName, d.indexName),
        AttrQueryTemplate, d.queryTemplate),
        AttrLocalField, d.localField),
        AttrForeignField, d.foreignField),
        AttrReturnFields, Some(BooleanToString(d.returnFields))),
        AttrReturnScores, Some(BooleanToString(d.returnScores))),
        AttrReturnFacets, Some(BooleanToString(d.returnFacets))),
        AttrType, Some(d.joinType.Name()));
    XmlElement(NodeNameJoin, attributes, d.queryString.GetOr(""))
  }

  /**
   * The XML constructor: attribute strings read as-is (null when absent), the
   * element text as the query string, flags through `Boolean.parseBoolean`,
   * the type through `JoinType.find`.
   */
  function ParseXmlConfig(node: XmlElement): (d: JoinDefinition)
    ensures d.queryString == Some(node.text)
    ensures d.returnFields <==> AttrReturnFields in node.attributes && ToLowerAscii(node.attributes[AttrReturnFields]) == "true"
    ensures d.returnScores <==> AttrReturnScores in node.attributes && ToLowerAscii(node.attributes[AttrReturnScores]) == "true"
    ensures d.returnFacets <==> AttrReturnFacets in node.attributes && ToLowerAscii(node.attributes[AttrReturnFacets]) == "true"
    ensures d.joinType == OUTER <==> AttrType in node.attributes && EqualsIgnoreCase("OUTER", Some(node.attributes[AttrType]))
  {
    JoinDefinition(
      AttributeString(node, AttrIndexName),
      AttributeString(node, AttrQueryTemplate),
      Some(node.text),
      AttributeString(node, AttrLocalField),
      AttributeString(node, AttrForeignField),
      ParseBoolean(AttributeString(node, AttrReturnFields)),
      ParseBoolean(AttributeString(node, AttrReturnScores)),
      ParseBoolean(AttributeString(node, AttrReturnFacets)),
      Find(AttributeString(node, AttrType)))
  }

  /**
   * Reading back what `writeXmlConfig` wrote recovers every serialised field;
   * a null query string, written as no text, reads back as "".
   */
  lemma ConfigRoundTrip(d: JoinDefinition)
    ensures ParseXmlConfig(WriteXmlConfig(d)) == d.(queryString := Some(d.queryString.GetOr("")))
    ensures d.queryString.Some? ==> ParseXmlConfig(WriteXmlConfig(d)) == d
  {
    ParseBooleanRoundTrip(d.returnFields);
    ParseBooleanRoundTrip(d.returnScores);
    ParseBooleanRoundTrip(d.returnFacets);
    FindName(d.joinType);
  }

  /** Parsing normalises: writing a parsed definition and parsing again changes nothing. */
  lemma ParseWriteParse(node: XmlElement)
    ensures ParseXmlConfig(WriteXmlConfig(ParseXmlConfig(node))) == ParseXmlConfig(node)
  {
    ConfigRoundTrip(ParseXmlConfig(node));
  }
}
