/**
 * The state machine of IndentingXMLStreamWriter, as values: the writer's
 * three flags and element-name stack together with the sink's indentation
 * level and everything written to it so far, and the effect of every write
 * call on that state. The class in module Writer is proved against Apply.
 */
module WriterSpec {
  import opened Wrappers
  import opened XmlText

  /** The constructor's settings: indentation unit, line end, and whether attributes share the tag's line. */
  datatype Config = Config(indent: string, lineEnd: string, useCompactAttributes: bool)

  /** The writer's fields and, for the sink, its indentation level and its output so far. */
  datatype WriterState = WriterState(
    inStartElement: bool,
    inEmptyStartElement: bool,
    isAfterText: bool,
    elementNameStack: seq<string>,
    level: nat,
    out: string)

  /** The failures a write call reports (each wrapped in an XMLStreamException by the writer). */
  datatype WriterError =
    | EmptyStackException          // writeEndElement with no open element
    | UnclosedElements             // the assertion in writeEndDocument
    | IndexOutOfBoundsException    // writeCharacters(char[], int, int) with a bad range

  /** One call of the writer's public write API; the overloads get distinct names. */
  datatype Op =
    | WriteEOL
    | WriteStartElement(localName: string)
    | WriteStartElementNs(namespaceURI: string, localName: string)
    | WriteStartElementPrefixed(prefix: Option<string>, localName: string, namespaceURI: string)
    | WriteEmptyElement(localName: string)
    | WriteEmptyElementNs(namespaceURI: string, localName: string)
    | WriteEmptyElementPrefixed(prefix: Option<string>, localName: string, namespaceURI: string)
    | WriteEndElement
    | WriteEndDocument
    | WriteStartAttribute(localName: string)
    | WriteStartAttributeNs(namespaceURI: string, localName: string)
    | WriteStartAttributePrefixed(prefix: Option<string>, namespaceURI: string, localName: string)
    | WriteAttributeCharacters(text: string)
    | WriteAttributeEntityRef(entityName: Option<string>)
    | EndAttribute
    | WriteAttribute(localName: string, value: string)
    | WriteAttributeNs(namespaceURI: string, localName: string, value: string)
    | WriteAttributePrefixed(prefix: Option<string>, namespaceURI: string, localName: string, value: string)
    | WriteNamespace(nsPrefix: string, namespaceURI: string)
    | WriteDefaultNamespace(namespaceURI: string)
    | WriteComment(data: string)
    | WriteProcessingInstruction(target: string)
    | WriteProcessingInstructionData(target: string, data: string)
    | WriteCData(data: string)
    | WriteDTD(dtd: string)
    | StartDTD(rootElementName: string)
    | EndDTD
    | WriteDtdEntity(entity: string, value: string)
    | WriteEntityRef(entityName: Option<string>)
    | WriteStartDocument
    | WriteStartDocumentVersion(version: string)
    | WriteStartDocumentEncoding(encoding: Option<string>, version: string)
    | WriteCharacters(text: string)
    | WriteCharactersRange(chars: seq<char>, start: int, len: int)

  /** The writer never leaves an empty-element mark without an open start tag. */
  predicate Consistent(s: WriterState)
  {
    s.inEmptyStartElement ==> s.inStartElement
  }

  /** The indentation string repeated once per level. */
  function Indentation(indent: string, level: nat): string
  {
    if level == 0 then [] else Indentation(indent, level - 1) + indent
  }

  /** What the sink's writeEOL appends: the line end, then the indentation for the level. */
  function LineBreak(c: Config, level: nat): string
  {
    c.lineEnd + Indentation(c.indent, level)
  }

  /** The sink's write(text): append. */
  function Emit(s: WriterState, text: string): WriterState
  {
    s.(out := s.out + text)
  }

  /** writeEOL: a line break at the current level; text no longer immediately precedes. */
  function Eol(c: Config, s: WriterState): WriterState
  {
    Emit(s, LineBreak(c, s.level)).(isAfterText := false)
  }

  /** finishStartElement: close a pending start tag, with "/>" if it is empty and ">" otherwise. */
  function Finish(s: WriterState): WriterState
  {
    if !s.inStartElement then s
    else if s.inEmptyStartElement then Emit(s, "/>").(inEmptyStartElement := false, inStartElement := false)
    else Emit(s, ">").(inStartElement := false)
  }

  /** The element name the three-argument writeStartElement pushes, and the attribute name writeStartAttribute writes. */
  function QualifiedName(prefix: Option<string>, localName: string): string
  {
    (if prefix.Some? && |prefix.value| >= 1 then prefix.value + ":" else "") + localName
  }

  /**
   * The qualified name ends with the local name; it is the local name alone
   * exactly when the prefix is null or empty, and prefix:localName otherwise.
   */
  lemma QualifiedNameParts(prefix: Option<string>, localName: string)
    ensures var r := QualifiedName(prefix, localName);
      && |r| >= |localName| && r[|r| - |localName|..] == localName
      && (r == localName <==> prefix.None? || prefix.value == [])
      && (r != localName ==> r == prefix.value + ":" + localName)
  {
    var r := QualifiedName(prefix, localName);
    if prefix.Some? && |prefix.value| >= 1 {
      assert |r| > |localName|;
    }
  }

  /** The body shared by the writeStartElement overloads, for the element name they push. */
  function Opened(c: Config, s: WriterState, name: string): WriterState
  {
    var s1 := Finish(s).(inStartElement := true, inEmptyStartElement := false);
    var s2 := s1.(elementNameStack := s1.elementNameStack + [name]);
    var s3 := Emit(Eol(c, s2), "<" + name);
    s3.(level := s3.level + 1, isAfterText := false)
  }

  /** writeEndElement, including the state it leaves when pop() finds the stack empty. */
  function Closed(c: Config, s: WriterState): WriterState
    requires s.level > 0
  {
    var isEmpty := s.inEmptyStartElement;
    var s1 := Finish(s);
    var s2 := s1.(level := s1.level - 1);
    if s2.elementNameStack == [] then s2
    else
      var name := s2.elementNameStack[|s2.elementNameStack| - 1];
      var s3 := s2.(elementNameStack := s2.elementNameStack[..|s2.elementNameStack| - 1]);
      ClosingTagWritten(c, s3, name, isEmpty)
  }

  /** writeEndElement after the pop: </name>, on a new line unless text came last, and only if the tag was not empty. */
  function ClosingTagWritten(c: Config, s: WriterState, name: string, isEmpty: bool): WriterState
  {
    var s1 :=
      if isEmpty then s
      else Emit(if s.isAfterText then s else Eol(c, s), "</" + name + ">");
    s1.(isAfterText := false)
  }

  /** The body shared by the writeStartAttribute overloads: a space or a line break, then name=". */
  function AttributeStarted(c: Config, s: WriterState, name: string): WriterState
  {
    Emit(if c.useCompactAttributes then Emit(s, " ") else Eol(c, s), name + "=\"")
  }

  /** writeAttributeCharacters: the escaped, whitespace-normalised value. */
  function AttributeValue(s: WriterState, text: string): WriterState
  {
    Emit(s, AttributeText(text))
  }

  /** writeAttribute: start, value, closing quote. */
  function AttributeWritten(c: Config, s: WriterState, name: string, value: string): WriterState
  {
    Emit(AttributeValue(AttributeStarted(c, s, name), value), "\"")
  }

  /** writeEntityRef and writeAttributeEntityRef write &name; only for a non-null, non-empty name. */
  function EntityReference(entityName: Option<string>): string
  {
    if entityName.Some? && |entityName.value| >= 1 then "&" + entityName.value + ";" else ""
  }

  /** The one-argument writeProcessingInstruction closes a pending start tag first. */
  function Instruction(s: WriterState, target: string): WriterState
  {
    Emit(Finish(s), "<?" + target + "?>")
  }

  /** The two-argument writeProcessingInstruction writes at once, whatever the tag state. */
  function InstructionWithData(s: WriterState, target: string, data: string): WriterState
  {
    Emit(s, "<?" + target + " " + data + "?>")
  }

  /**
   * The encoding name writeStartDocument(encoding, version) declares: the
   * two Java aliases become their XML names, any other name is kept. The
   * result is never one of the aliases.
   */
  function XmlEncodingName(encoding: string): (r: string)
    ensures r != "UTF8" && r != "UTF16"
    ensures encoding != "UTF8" && encoding != "UTF16" ==> r == encoding
    ensures encoding == "UTF8" ==> r == "UTF-8"
    ensures encoding == "UTF16" ==> r == "UTF-16"
  {
    if encoding == "UTF8" then "UTF-8"
    else if encoding == "UTF16" then "UTF-16"
    else encoding
  }

  /** The data of the XML declaration writeStartDocument(encoding, version) writes; a null encoding is left out. */
  function DeclarationData(encoding: Option<string>, version: string): string
  {
    "version=\"" + version + (if encoding.None? then "" else "\" encoding=\"" + XmlEncodingName(encoding.value)) + "\""
  }

  /** writeCharacters(char[], start, len): String.copyValueOf accepts the range. */
  predicate InRange(chars: seq<char>, start: int, len: int)
  {
    0 <= start && 0 <= len && start + len <= |chars|
  }

  /** The sink cannot lower its indentation below zero. */
  predicate Enabled(s: WriterState, op: Op)
  {
    (op.WriteEndElement? || op.EndDTD?) ==> s.level > 0
  }

  /** The failure a call reports, if any; Apply gives the state the call leaves either way. */
  function Error(s: WriterState, op: Op): Option<WriterError>
  {
    match op
    case WriteEndElement =>
      if s.elementNameStack == [] then Some(EmptyStackException) else None
    case WriteEndDocument =>
      if s.elementNameStack != [] then Some(UnclosedElements) else None
    case WriteCharactersRange(chars, start, len) =>
      if InRange(chars, start, len) then None else Some(IndexOutOfBoundsException)
    case _ => None
  }

  /** The state a write call leaves, by the kind of call. */
  function Apply(c: Config, s: WriterState, op: Op): WriterState
    requires Enabled(s, op)
  {
    if ElementCall(op) then ApplyElementCall(c, s, op)
    else if AttributeCall(op) then ApplyAttributeCall(c, s, op)
    else if ContentCall(op) then ApplyContentCall(c, s, op)
    else ApplyDocumentCall(c, s, op)
  }

  /** The calls about opening and closing elements and the document. */
  predicate ElementCall(op: Op)
  {
    op.WriteStartElement? || op.WriteStartElementNs? || op.WriteStartElementPrefixed? || op.WriteEmptyElement? || op.WriteEmptyElementNs? || op.WriteEmptyElementPrefixed? || op.WriteEndElement? || op.WriteEndDocument?
  }

  /** The calls about attributes and namespace declarations. */
  predicate AttributeCall(op: Op)
  {
    op.WriteStartAttribute? || op.WriteStartAttributeNs? || op.WriteStartAttributePrefixed? || op.WriteAttribute? || op.WriteAttributeNs? || op.WriteAttributePrefixed? || op.WriteAttributeCharacters? || op.WriteAttributeEntityRef? || op.EndAttribute? || op.WriteNamespace? || op.WriteDefaultNamespace?
  }

  /** The calls about character data, comments, instructions and line breaks. */
  predicate ContentCall(op: Op)
  {
    op.WriteEOL? || op.WriteComment? || op.WriteProcessingInstruction? || op.WriteProcessingInstructionData? || op.WriteCData? || op.WriteEntityRef? || op.WriteCharacters? || op.WriteCharactersRange?
  }

  /** The calls about the DTD and the XML declaration. */
  predicate DocumentCall(op: Op)
  {
    op.WriteDTD? || op.StartDTD? || op.EndDTD? || op.WriteDtdEntity? || op.WriteStartDocument? || op.WriteStartDocumentVersion? || op.WriteStartDocumentEncoding?
  }

  function ApplyElementCall(c: Config, s: WriterState, op: Op): WriterState
    requires Enabled(s, op) && ElementCall(op)
  {
    match op
    case WriteStartElement(localName) => Opened(c, s, localName)
    case WriteStartElementNs(_, localName) => Opened(c, s, localName)
    case WriteStartElementPrefixed(prefix, localName, _) => Opened(c, s, QualifiedName(prefix, localName))
    case WriteEmptyElement(localName) => Opened(c, s, localName).(inEmptyStartElement := true)
    case WriteEmptyElementNs(_, localName) => Opened(c, s, localName).(inEmptyStartElement := true)
    case WriteEmptyElementPrefixed(prefix, localName, _) =>
      Opened(c, s, QualifiedName(prefix, localName)).(inEmptyStartElement := true)
    case WriteEndElement => Closed(c, s)
    case WriteEndDocument => s.(inEmptyStartElement := false, inStartElement := false, isAfterText := false)
  }

  function ApplyAttributeCall(c: Config, s: WriterState, op: Op): WriterState
    requires AttributeCall(op)
  {
    match op
    case WriteStartAttribute(localName) => AttributeStarted(c, s, localName)
    case WriteStartAttributeNs(_, localName) => AttributeStarted(c, s, localName)
    case WriteStartAttributePrefixed(prefix, _, localName) => AttributeStarted(c, s, QualifiedName(prefix, localName))
    case WriteAttributeCharacters(text) => AttributeValue(s, text)
    case WriteAttributeEntityRef(entityName) => Emit(s, EntityReference(entityName))
    case EndAttribute => Emit(s, "\"")
    case WriteAttribute(localName, value) => AttributeWritten(c, s, localName, value)
    case WriteAttributeNs(_, localName, value) => AttributeWritten(c, s, localName, value)
    case WriteAttributePrefixed(prefix, _, localName, value) =>
      AttributeWritten(c, s, QualifiedName(prefix, localName), value)
    case WriteNamespace(prefix, uri) =>
      Emit(Eol(c, s), "xmlns:" + prefix + "=\"" + EscapeXml10(uri) + "\"")
    case WriteDefaultNamespace(uri) =>
      Emit(Eol(c, s), "xmlns=\"" + EscapeXml10(uri) + "\"")
  }

  function ApplyContentCall(c: Config, s: WriterState, op: Op): WriterState
    requires ContentCall(op)
  {
    match op
    case WriteEOL => Eol(c, s)
    case WriteComment(data) => Emit(Finish(s), "<!--" + data + "-->")
    case WriteProcessingInstruction(target) => Instruction(s, target)
    case WriteProcessingInstructionData(target, data) => InstructionWithData(s, target, data)
    case WriteCData(data) => Emit(Finish(s), "<[CDATA[" + data + "]]>").(isAfterText := true)
    case WriteEntityRef(entityName) => Emit(Finish(s), EntityReference(entityName)).(isAfterText := true)
    case WriteCharacters(text) => Emit(Finish(s), EscapeXml10(text)).(isAfterText := true)
    case WriteCharactersRange(chars, start, len) =>
      if InRange(chars, start, len) then Emit(Finish(s), EscapeXml10(chars[start..start + len])).(isAfterText := true)
      else Finish(s)
  }

  function ApplyDocumentCall(c: Config, s: WriterState, op: Op): WriterState
    requires Enabled(s, op) && DocumentCall(op)
  {
    match op
    case WriteDTD(dtd) => Emit(s, dtd)
    case StartDTD(root) => Emit(s, "<!DOCTYPE " + root + " [").(level := s.level + 1)
    case EndDTD => Emit(Eol(c, s.(level := s.level - 1)), "]>")
    case WriteDtdEntity(name, value) =>
      Emit(Eol(c, s), "<!ENTITY " + name + " \"" + EscapeXml10(value) + "\">")
    case WriteStartDocument => Instruction(s.(level := 0), "xml")
    case WriteStartDocumentVersion(version) =>
      InstructionWithData(s.(level := 0), "xml", "version=\"" + version + "\"")
    case WriteStartDocumentEncoding(encoding, version) =>
      InstructionWithData(s.(level := 0), "xml", DeclarationData(encoding, version))
  }

  /** The calls that close a pending start tag before writing anything. */
  predicate ClosesPendingTag(op: Op)
  {
    || op.WriteStartElement? || op.WriteStartElementNs? || op.WriteStartElementPrefixed?
    || op.WriteEmptyElement? || op.WriteEmptyElementNs? || op.WriteEmptyElementPrefixed?
    || op.WriteEndElement? || op.WriteComment? || op.WriteProcessingInstruction? || op.WriteCData?
    || op.WriteEntityRef? || op.WriteStartDocument? || op.WriteCharacters? || op.WriteCharactersRange?
  }

  /** The calls that open a start tag. */
  predicate OpensTag(op: Op)
  {
    || op.WriteStartElement? || op.WriteStartElementNs? || op.WriteStartElementPrefixed?
    || op.WriteEmptyElement? || op.WriteEmptyElementNs? || op.WriteEmptyElementPrefixed?
  }

  /** The calls that change the sink's level other than by opening or closing an element. */
  predicate MovesLevelAlone(op: Op)
  {
    op.StartDTD? || op.EndDTD? || op.WriteStartDocument? || op.WriteStartDocumentVersion? || op.WriteStartDocumentEncoding?
  }

  /** finishStartElement writes only while a start tag is open, then clears both flags; a second call writes nothing. */
  lemma FinishClosesOnce(s: WriterState)
    requires Consistent(s)
    ensures Finish(s).out == s.out + (if !s.inStartElement then "" else if s.inEmptyStartElement then "/>" else ">")
    ensures !Finish(s).inStartElement && !Finish(s).inEmptyStartElement
    ensures Finish(Finish(s)) == Finish(s)
  {
  }

  lemma PrefixOfAppend(a: string, b: string)
    ensures a <= a + b
  {
    assert (a + b)[..|a|] == a;
  }

  lemma PrefixTransitive(a: string, b: string, d: string)
    requires a <= b && b <= d
    ensures a <= d
  {
    assert d[..|b|][..|a|] == d[..|a|];
  }

  /* Regrouping concatenations: consecutive writes append their texts in order. */

  lemma Associate(a: string, b: string, d: string)
    ensures (a + b) + d == a + (b + d)
  {
  }

  lemma Associate4(a: string, b: string, d: string, e: string)
    ensures a + b + d + e == a + (b + d + e)
  {
  }

  lemma Associate6(a: string, b: string, d: string, e: string, f: string, g: string)
    ensures a + b + d + e + f + g == a + (b + d + e + f + g)
  {
  }

  /** Closing a pending tag only appends. */
  lemma FinishAppends(s: WriterState)
    ensures s.out <= Finish(s).out
  {
    PrefixOfAppend(s.out, Finish(s).out[|s.out|..]);
    assert Finish(s).out == s.out + Finish(s).out[|s.out|..];
  }

  /** Writing after closing a pending tag only appends, and what the closing wrote comes first. */
  lemma FinishThenEmitAppends(s: WriterState, t: string)
    ensures Finish(s).out <= Emit(Finish(s), t).out
    ensures s.out <= Emit(Finish(s), t).out
  {
    FinishAppends(s);
    PrefixOfAppend(Finish(s).out, t);
    PrefixTransitive(s.out, Finish(s).out, Emit(Finish(s), t).out);
  }

  lemma OpenedAppends(c: Config, s: WriterState, name: string)
    ensures Finish(s).out <= Opened(c, s, name).out
    ensures s.out <= Opened(c, s, name).out
  {
    FinishAppends(s);
    var f := Finish(s);
    assert Opened(c, s, name).out == f.out + (LineBreak(c, s.level) + "<" + name);
    PrefixOfAppend(f.out, LineBreak(c, s.level) + "<" + name);
    PrefixTransitive(s.out, f.out, Opened(c, s, name).out);
  }

  lemma ClosedAppends(c: Config, s: WriterState)
    requires s.level > 0
    ensures Finish(s).out <= Closed(c, s).out
    ensures s.out <= Closed(c, s).out
  {
    FinishAppends(s);
    var f := Finish(s);
    var r := Closed(c, s);
    assert r.out == f.out + r.out[|f.out|..];
    PrefixOfAppend(f.out, r.out[|f.out|..]);
    PrefixTransitive(s.out, f.out, r.out);
  }

  lemma AttributeAppends(c: Config, s: WriterState, name: string, value: string)
    ensures s.out <= AttributeStarted(c, s, name).out
    ensures s.out <= AttributeWritten(c, s, name, value).out
  {
    var a := AttributeStarted(c, s, name);
    assert a.out == s.out + a.out[|s.out|..];
    PrefixOfAppend(s.out, a.out[|s.out|..]);
    var w := AttributeWritten(c, s, name, value);
    assert w.out == s.out + w.out[|s.out|..];
    PrefixOfAppend(s.out, w.out[|s.out|..]);
  }

  lemma ElementCallAppends(c: Config, s: WriterState, op: Op)
    requires Enabled(s, op) && ElementCall(op)
    ensures s.out <= ApplyElementCall(c, s, op).out
  {
    var r := ApplyElementCall(c, s, op);
    match op
    case WriteStartElement(n) => OpenedAppends(c, s, n);
    case WriteStartElementNs(_, n) => OpenedAppends(c, s, n);
    case WriteStartElementPrefixed(p, n, _) => OpenedAppends(c, s, QualifiedName(p, n));
    case WriteEmptyElement(n) => OpenedAppends(c, s, n);
    case WriteEmptyElementNs(_, n) => OpenedAppends(c, s, n);
    case WriteEmptyElementPrefixed(p, n, _) => OpenedAppends(c, s, QualifiedName(p, n));
    case WriteEndElement => ClosedAppends(c, s);
    case WriteEndDocument =>
  }

  lemma AttributeCallAppends(c: Config, s: WriterState, op: Op)
    requires Enabled(s, op) && AttributeCall(op)
    ensures s.out <= ApplyAttributeCall(c, s, op).out
  {
    var r := ApplyAttributeCall(c, s, op);
    match op
    case WriteStartAttribute(n) => AttributeAppends(c, s, n, "");
    case WriteStartAttributeNs(_, n) => AttributeAppends(c, s, n, "");
    case WriteStartAttributePrefixed(p, _, n) => AttributeAppends(c, s, QualifiedName(p, n), "");
    case WriteAttribute(n, v) => AttributeAppends(c, s, n, v);
    case WriteAttributeNs(_, n, v) => AttributeAppends(c, s, n, v);
    case WriteAttributePrefixed(p, _, n, v) => AttributeAppends(c, s, QualifiedName(p, n), v);
    case _ => AttributePartAppends(c, s, op);
  }

  lemma AttributePartAppends(c: Config, s: WriterState, op: Op)
    requires AttributeCall(op) && !op.WriteStartAttribute? && !op.WriteStartAttributeNs? && !op.WriteStartAttributePrefixed?
    requires !op.WriteAttribute? && !op.WriteAttributeNs? && !op.WriteAttributePrefixed?
    ensures s.out <= ApplyAttributeCall(c, s, op).out
  {
    var r := ApplyAttributeCall(c, s, op);
    match op
    case WriteAttributeCharacters(t) => PrefixOfAppend(s.out, AttributeText(t));
    case WriteAttributeEntityRef(e) => PrefixOfAppend(s.out, EntityReference(e));
    case EndAttribute => PrefixOfAppend(s.out, "\"");
    case WriteNamespace(p, u) =>
      var t := "xmlns:" + p + "=\"" + EscapeXml10(u) + "\"";
      assert r.out == s.out + (LineBreak(c, s.level) + t);
      PrefixOfAppend(s.out, LineBreak(c, s.level) + t);
    case WriteDefaultNamespace(u) =>
      var t := "xmlns=\"" + EscapeXml10(u) + "\"";
      assert r.out == s.out + (LineBreak(c, s.level) + t);
      PrefixOfAppend(s.out, LineBreak(c, s.level) + t);
  }

  lemma ContentCallAppends(c: Config, s: WriterState, op: Op)
    requires Enabled(s, op) && ContentCall(op)
    ensures s.out <= ApplyContentCall(c, s, op).out
  {
    var r := ApplyContentCall(c, s, op);
    match op
    case WriteEOL => PrefixOfAppend(s.out, LineBreak(c, s.level));
    case WriteComment(d) => FinishThenEmitAppends(s, "<!--" + d + "-->");
    case WriteProcessingInstruction(t) => FinishThenEmitAppends(s, "<?" + t + "?>");
    case WriteProcessingInstructionData(t, d) => PrefixOfAppend(s.out, "<?" + t + " " + d + "?>");
    case WriteCData(d) => FinishThenEmitAppends(s, "<[CDATA[" + d + "]]>");
    case WriteEntityRef(e) => FinishThenEmitAppends(s, EntityReference(e));
    case WriteCharacters(t) => FinishThenEmitAppends(s, EscapeXml10(t));
    case WriteCharactersRange(chars, start, len) =>
      if InRange(chars, start, len) {
        FinishThenEmitAppends(s, EscapeXml10(chars[start..start + len]));
      } else {
        FinishAppends(s);
      }
  }

  lemma DocumentCallAppends(c: Config, s: WriterState, op: Op)
    requires Enabled(s, op) && DocumentCall(op)
    ensures s.out <= ApplyDocumentCall(c, s, op).out
  {
    var r := ApplyDocumentCall(c, s, op);
    match op
    case WriteDTD(d) => PrefixOfAppend(s.out, d);
    case StartDTD(root) => PrefixOfAppend(s.out, "<!DOCTYPE " + root + " [");
    case EndDTD =>
      assert r.out == s.out + (LineBreak(c, s.level - 1) + "]>");
      PrefixOfAppend(s.out, LineBreak(c, s.level - 1) + "]>");
    case WriteDtdEntity(n, v) =>
      var t := "<!ENTITY " + n + " \"" + EscapeXml10(v) + "\">";
      assert r.out == s.out + (LineBreak(c, s.level) + t);
      PrefixOfAppend(s.out, LineBreak(c, s.level) + t);
    case WriteStartDocument => FinishThenEmitAppends(s.(level := 0), "<?" + "xml" + "?>");
    case WriteStartDocumentVersion(v) =>
      PrefixOfAppend(s.out, "<?" + "xml" + " " + ("version=\"" + v + "\"") + "?>");
    case WriteStartDocumentEncoding(e, v) =>
      PrefixOfAppend(s.out, "<?" + "xml" + " " + DeclarationData(e, v) + "?>");
  }

  /** The sink is append-only: no call takes back or changes what was written. */
  lemma ApplyAppends(c: Config, s: WriterState, op: Op)
    requires Enabled(s, op)
    ensures s.out <= Apply(c, s, op).out
  {
    if ElementCall(op) {
      ElementCallAppends(c, s, op);
    } else if AttributeCall(op) {
      AttributeCallAppends(c, s, op);
    } else if ContentCall(op) {
      ContentCallAppends(c, s, op);
    } else {
      DocumentCallAppends(c, s, op);
    }
  }

  /*
   * What each kind of call does to the level, the stack and the three
   * flags; the lemmas about Apply below are put together from these.
   */

  lemma ElementCallEffect(c: Config, s: WriterState, op: Op)
    requires Enabled(s, op) && ElementCall(op)
    ensures var r := ApplyElementCall(c, s, op);
      && (Consistent(s) ==> Consistent(r))
      && (OpensTag(op) ==>
            && r.level == s.level + 1 && |r.elementNameStack| == |s.elementNameStack| + 1
            && r.inStartElement && !r.isAfterText)
      && (op.WriteEndElement? ==>
            && r.level == s.level - 1 && !r.inStartElement
            && (Consistent(s) ==> !r.inEmptyStartElement)
            && (s.elementNameStack != [] ==>
                  r.elementNameStack == s.elementNameStack[..|s.elementNameStack| - 1] && !r.isAfterText))
      && (op.WriteEndDocument? ==>
            && r.level == s.level && r.elementNameStack == s.elementNameStack
            && !r.inStartElement && !r.inEmptyStartElement && !r.isAfterText)
  {
  }

  lemma AttributeCallEffect(c: Config, s: WriterState, op: Op)
    requires AttributeCall(op)
    ensures var r := ApplyAttributeCall(c, s, op);
      && r.level == s.level && r.elementNameStack == s.elementNameStack
      && r.inStartElement == s.inStartElement && r.inEmptyStartElement == s.inEmptyStartElement
  {
  }

  lemma ContentCallEffect(c: Config, s: WriterState, op: Op)
    requires ContentCall(op)
    ensures var r := ApplyContentCall(c, s, op);
      && r.level == s.level && r.elementNameStack == s.elementNameStack
      && (ClosesPendingTag(op) ==> !r.inStartElement && (Consistent(s) ==> !r.inEmptyStartElement))
      && (!ClosesPendingTag(op) ==> r.inStartElement == s.inStartElement && r.inEmptyStartElement == s.inEmptyStartElement)
      && (op.WriteCharacters? || op.WriteEntityRef? || op.WriteCData? ==> r.isAfterText)
      && (op.WriteCharactersRange? && InRange(op.chars, op.start, op.len) ==> r.isAfterText)
      && (op.WriteEOL? ==> !r.isAfterText)
      && (op.WriteComment? || op.WriteProcessingInstruction? || op.WriteProcessingInstructionData? ==>
            r.isAfterText == s.isAfterText)
  {
  }

  lemma DocumentCallEffect(c: Config, s: WriterState, op: Op)
    requires Enabled(s, op) && DocumentCall(op)
    ensures var r := ApplyDocumentCall(c, s, op);
      && r.elementNameStack == s.elementNameStack
      && (!MovesLevelAlone(op) ==> r.level == s.level)
      && (op.WriteStartDocument? ==> !r.inStartElement && (Consistent(s) ==> !r.inEmptyStartElement))
      && (!op.WriteStartDocument? ==> r.inStartElement == s.inStartElement && r.inEmptyStartElement == s.inEmptyStartElement)
  {
  }

  /** Every call keeps the empty-element mark within an open start tag. */
  lemma ApplyKeepsConsistent(c: Config, s: WriterState, op: Op)
    requires Enabled(s, op) && Consistent(s)
    ensures Consistent(Apply(c, s, op))
  {
    if ElementCall(op) {
      ElementCallEffect(c, s, op);
    } else if AttributeCall(op) {
      AttributeCallEffect(c, s, op);
    } else if ContentCall(op) {
      ContentCallEffect(c, s, op);
    } else {
      DocumentCallEffect(c, s, op);
    }
  }

  /**
   * The calls that close a pending tag write the closing ">" or "/>" before
   * anything of their own; all but the start calls leave no tag open, and
   * the start calls leave a new one open.
   */
  lemma PendingTagClosedFirst(c: Config, s: WriterState, op: Op)
    requires Enabled(s, op) && Consistent(s) && ClosesPendingTag(op)
    ensures Finish(s).out <= Apply(c, s, op).out
    ensures !OpensTag(op) ==> !Apply(c, s, op).inStartElement && !Apply(c, s, op).inEmptyStartElement
    ensures OpensTag(op) ==> Apply(c, s, op).inStartElement
  {
    if OpensTag(op) {
      OpeningCallsCloseFirst(c, s, op);
    } else if op.WriteEndElement? {
      ClosedAppends(c, s);
      ElementCallEffect(c, s, op);
    } else if op.WriteStartDocument? {
      StartDocumentClosesFirst(c, s);
    } else {
      ContentCallsCloseFirst(c, s, op);
    }
  }

  lemma OpeningCallsCloseFirst(c: Config, s: WriterState, op: Op)
    requires OpensTag(op)
    ensures Finish(s).out <= ApplyElementCall(c, s, op).out
    ensures ApplyElementCall(c, s, op).inStartElement
  {
    match op
    case WriteStartElement(n) => OpenedAppends(c, s, n);
    case WriteStartElementNs(_, n) => OpenedAppends(c, s, n);
    case WriteStartElementPrefixed(p, n, _) => OpenedAppends(c, s, QualifiedName(p, n));
    case WriteEmptyElement(n) => OpenedAppends(c, s, n);
    case WriteEmptyElementNs(_, n) => OpenedAppends(c, s, n);
    case WriteEmptyElementPrefixed(p, n, _) => OpenedAppends(c, s, QualifiedName(p, n));
  }

  lemma StartDocumentClosesFirst(c: Config, s: WriterState)
    requires Consistent(s)
    ensures Finish(s).out <= ApplyDocumentCall(c, s, WriteStartDocument).out
    ensures !ApplyDocumentCall(c, s, WriteStartDocument).inStartElement
    ensures !ApplyDocumentCall(c, s, WriteStartDocument).inEmptyStartElement
  {
    FinishThenEmitAppends(s.(level := 0), "<?" + "xml" + "?>");
    assert Finish(s.(level := 0)).out == Finish(s).out;
  }

  lemma ContentCallsCloseFirst(c: Config, s: WriterState, op: Op)
    requires Consistent(s) && ClosesPendingTag(op) && ContentCall(op)
    ensures Finish(s).out <= ApplyContentCall(c, s, op).out
    ensures !ApplyContentCall(c, s, op).inStartElement && !ApplyContentCall(c, s, op).inEmptyStartElement
  {
    match op
    case WriteComment(d) => FinishThenEmitAppends(s, "<!--" + d + "-->");
    case WriteProcessingInstruction(t) => FinishThenEmitAppends(s, "<?" + t + "?>");
    case WriteCData(d) => FinishThenEmitAppends(s, "<[CDATA[" + d + "]]>");
    case WriteEntityRef(e) => FinishThenEmitAppends(s, EntityReference(e));
    case WriteCharacters(t) => FinishThenEmitAppends(s, EscapeXml10(t));
    case WriteCharactersRange(chars, start, len) =>
      if InRange(chars, start, len) {
        FinishThenEmitAppends(s, EscapeXml10(chars[start..start + len]));
      } else {
        FinishAppends(s);
      }
  }

  /**
   * Every other call but writeEndDocument leaves the tag state as it found
   * it: attributes, namespace declarations, the two-argument
   * writeProcessingInstruction, the DTD calls and the two declaration calls
   * that use it write into an open start tag if there is one.
   */
  lemma OtherCallsKeepTagState(c: Config, s: WriterState, op: Op)
    requires Enabled(s, op) && !ClosesPendingTag(op) && !op.WriteEndDocument?
    ensures Apply(c, s, op).inStartElement == s.inStartElement
    ensures Apply(c, s, op).inEmptyStartElement == s.inEmptyStartElement
  {
    if ElementCall(op) {
      ElementCallEffect(c, s, op);
    } else if AttributeCall(op) {
      AttributeCallEffect(c, s, op);
    } else if ContentCall(op) {
      ContentCallEffect(c, s, op);
    } else {
      DocumentCallEffect(c, s, op);
    }
  }

  /**
   * Opening an element pushes one name and raises the level by one; closing
   * one pops one name and lowers the level by one; no other call but the
   * DTD and start-document calls changes either. So the level keeps its
   * distance from the stack depth.
   */
  lemma LevelTracksStack(c: Config, s: WriterState, op: Op)
    requires Enabled(s, op) && Error(s, op).None? && !MovesLevelAlone(op)
    ensures Apply(c, s, op).level - |Apply(c, s, op).elementNameStack| == s.level - |s.elementNameStack|
    ensures OpensTag(op) ==> |Apply(c, s, op).elementNameStack| == |s.elementNameStack| + 1
    ensures op.WriteEndElement? ==> Apply(c, s, op).elementNameStack == s.elementNameStack[..|s.elementNameStack| - 1]
  {
    if ElementCall(op) {
      ElementCallEffect(c, s, op);
    } else if AttributeCall(op) {
      AttributeCallEffect(c, s, op);
    } else if ContentCall(op) {
      ContentCallEffect(c, s, op);
    } else {
      DocumentCallEffect(c, s, op);
    }
  }

  /** The stack entry each writeStartElement overload pushes: the qualified name for the prefixed one, the local name otherwise. */
  lemma StartElementPushes(c: Config, s: WriterState, prefix: Option<string>, localName: string, namespaceURI: string)
    ensures Apply(c, s, WriteStartElementPrefixed(prefix, localName, namespaceURI)).elementNameStack
      == s.elementNameStack + [QualifiedName(prefix, localName)]
    ensures Apply(c, s, WriteStartElementNs(namespaceURI, localName)).elementNameStack
      == s.elementNameStack + [localName]
    ensures Apply(c, s, WriteStartElement(localName)).elementNameStack == s.elementNameStack + [localName]
    ensures Apply(c, s, WriteStartElement(localName)).level == s.level + 1
    ensures Apply(c, s, WriteStartElementNs(namespaceURI, localName)).level == s.level + 1
    ensures Apply(c, s, WriteStartElementPrefixed(prefix, localName, namespaceURI)).level == s.level + 1
  {
  }

  /** writeEndElement with no open element fails, after closing the pending tag and lowering the level. */
  lemma EndElementOnEmptyStack(c: Config, s: WriterState)
    requires s.level > 0
    ensures Error(s, WriteEndElement) == Some(EmptyStackException) <==> s.elementNameStack == []
    ensures s.elementNameStack == [] ==> Apply(c, s, WriteEndElement) == Finish(s).(level := s.level - 1)
  {
  }

  /**
   * writeEndElement after a non-empty start tag writes a line break before
   * </name> unless text was written last, and always leaves isAfterText false.
   */
  lemma ClosingTag(c: Config, s: WriterState)
    requires s.level > 0 && s.elementNameStack != [] && !s.inEmptyStartElement
    ensures Closed(c, s).out ==
      Finish(s).out + (if s.isAfterText then "" else LineBreak(c, s.level - 1))
      + "</" + s.elementNameStack[|s.elementNameStack| - 1] + ">"
    ensures !Closed(c, s).isAfterText
  {
    var f := Finish(s);
    var name := s.elementNameStack[|s.elementNameStack| - 1];
    var x := if s.isAfterText then "" else LineBreak(c, s.level - 1);
    assert Closed(c, s).out == f.out + x + ("</" + name + ">") by {
      if s.isAfterText {
        assert f.out + x == f.out;
      }
    }
    Associate4(f.out + x, "</", name, ">");
  }

  /** writeEmptyElement then writeEndElement: one self-closed tag, no closing tag, stack and level restored. */
  lemma {:induction false} EmptyElementThenEnd(c: Config, s: WriterState, name: string)
    ensures var e := Apply(c, s, WriteEmptyElement(name));
      e.level > 0 &&
      var r := Apply(c, e, WriteEndElement);
      && Error(e, WriteEndElement).None?
      && r.out == Finish(s).out + LineBreak(c, s.level) + "<" + name + "/>"
      && r.elementNameStack == s.elementNameStack && r.level == s.level
      && !r.inStartElement && !r.inEmptyStartElement && !r.isAfterText
  {
    var e := Apply(c, s, WriteEmptyElement(name));
    assert e == Opened(c, s, name).(inEmptyStartElement := true);
    Associate(Finish(s).out + LineBreak(c, s.level), "<", name);
    assert e.out == Finish(s).out + LineBreak(c, s.level) + "<" + name;
    assert e.elementNameStack == s.elementNameStack + [name];
    assert Apply(c, e, WriteEndElement) == Closed(c, e);
  }

  /** writeStartElement then writeEndElement: an open and a close tag on separate lines, stack and level restored. */
  lemma {:induction false} StartElementThenEnd(c: Config, s: WriterState, name: string)
    ensures var e := Apply(c, s, WriteStartElement(name));
      e.level > 0 &&
      var r := Apply(c, e, WriteEndElement);
      && Error(e, WriteEndElement).None?
      && r.out == Finish(s).out + LineBreak(c, s.level) + "<" + name + ">" + LineBreak(c, s.level) + "</" + name + ">"
      && r.elementNameStack == s.elementNameStack && r.level == s.level
      && !r.inStartElement && !r.inEmptyStartElement && !r.isAfterText
  {
    var e := Apply(c, s, WriteStartElement(name));
    assert e == Opened(c, s, name);
    Associate(Finish(s).out + LineBreak(c, s.level), "<", name);
    assert e.out == Finish(s).out + LineBreak(c, s.level) + "<" + name;
    assert e.elementNameStack == s.elementNameStack + [name];
    ClosingTag(c, e);
    assert Apply(c, e, WriteEndElement) == Closed(c, e);
  }

  /**
   * startDTD then endDTD: the DOCTYPE opening, a line break at the level
   * the DTD started from, then "]>"; the level is restored and the tag
   * state and the element stack are untouched.
   */
  lemma StartDTDThenEnd(c: Config, s: WriterState, root: string)
    ensures var d := Apply(c, s, StartDTD(root));
      d.level > 0 &&
      var r := Apply(c, d, EndDTD);
      && r.out == s.out + "<!DOCTYPE " + root + " [" + LineBreak(c, s.level) + "]>"
      && r.level == s.level && r.elementNameStack == s.elementNameStack
      && r.inStartElement == s.inStartElement && r.inEmptyStartElement == s.inEmptyStartElement
      && !r.isAfterText
  {
    var d := Apply(c, s, StartDTD(root));
    assert d == Emit(s, "<!DOCTYPE " + root + " [").(level := s.level + 1);
    var r := Apply(c, d, EndDTD);
    assert r == Emit(Eol(c, d.(level := s.level)), "]>");
    Associate(s.out, "<!DOCTYPE " + root + " [", LineBreak(c, s.level));
  }

  /** Character data, entity references and CDATA set isAfterText; a line break, an element and the end of the document clear it. */
  lemma AfterTextFlag(c: Config, s: WriterState, op: Op)
    requires Enabled(s, op) && Error(s, op).None?
    ensures op.WriteCharacters? || op.WriteCharactersRange? || op.WriteEntityRef? || op.WriteCData? ==>
      Apply(c, s, op).isAfterText
    ensures OpensTag(op) || op.WriteEndElement? || op.WriteEOL? || op.WriteEndDocument? ==>
      !Apply(c, s, op).isAfterText
    ensures op.WriteComment? || op.WriteProcessingInstruction? || op.WriteProcessingInstructionData? ==>
      Apply(c, s, op).isAfterText == s.isAfterText
  {
    if ElementCall(op) {
      ElementCallEffect(c, s, op);
    } else if AttributeCall(op) {
      AttributeCallEffect(c, s, op);
    } else if ContentCall(op) {
      ContentCallEffect(c, s, op);
    } else {
      DocumentCallEffect(c, s, op);
    }
  }

  /** writeStartDocument(encoding, version): level 0, and the declaration with the normalised encoding, or none when it is null. */
  lemma {:induction false} StartDocumentDeclaration(c: Config, s: WriterState, encoding: Option<string>, version: string)
    ensures Apply(c, s, WriteStartDocumentEncoding(encoding, version)).level == 0
    ensures Apply(c, s, WriteStartDocumentEncoding(encoding, version)).out ==
      s.out + "<?xml " + DeclarationData(encoding, version) + "?>"
    ensures encoding.None? ==> DeclarationData(encoding, version) == "version=\"" + version + "\""
    ensures encoding.Some? ==>
      DeclarationData(encoding, version) ==
      "version=\"" + version + "\" encoding=\"" + XmlEncodingName(encoding.value) + "\""
  {
    assert "<?" + "xml" + " " == "<?xml ";
    if encoding.None? {
      assert "version=\"" + version + "" == "version=\"" + version;
    }
  }

  /**
   * As written, the two-argument writeProcessingInstruction does not close
   * a pending start tag: the instruction lands inside it, and the tag stays open.
   */
  lemma InstructionWithDataInsideOpenTag(c: Config, s: WriterState, target: string, data: string)
    requires s.inStartElement
    ensures Apply(c, s, WriteProcessingInstructionData(target, data)).out == s.out + "<?" + target + " " + data + "?>"
    ensures Apply(c, s, WriteProcessingInstructionData(target, data)).inStartElement
  {
  }

  /** As written, writeCData opens its section with "<[CDATA[", not XML's "<![CDATA[". */
  lemma CDataMarker(c: Config, s: WriterState, data: string)
    ensures Apply(c, s, WriteCData(data)).out == Finish(s).out + "<[CDATA[" + data + "]]>"
  {
  }

  /** writeEndDocument clears all three flags and fails exactly when elements are still open. */
  lemma EndDocumentClears(c: Config, s: WriterState)
    ensures var r := Apply(c, s, WriteEndDocument);
      !r.inStartElement && !r.inEmptyStartElement && !r.isAfterText && r.out == s.out
    ensures Error(s, WriteEndDocument).Some? <==> s.elementNameStack != []
  {
  }
}
