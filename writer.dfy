/**
 * IndentingXMLStreamWriter: a StAX writer that indents its output. The
 * object holds the three tag flags, the stack of open element names and
 * the namespace table; the sink it writes through (IndentingWriter) is
 * modelled inline as an append-only buffer with an indentation level.
 * Every public write method is proved to leave the state that
 * WriterSpec.Apply gives for the same call.
 */
module Writer {
  import opened Wrappers
  import opened XmlText
  import opened Namespaces
  import S = WriterSpec

  class IndentingXMLStreamWriter {
    /** The sink's indentation unit and line end, fixed at construction. */
    const indent: string
    const lineEnd: string
    const useCompactAttributes: bool

    /** The sink: its indentation level and everything written to it. */
    var level: nat
    var out: string

    var inStartElement: bool
    var inEmptyStartElement: bool
    var isAfterText: bool
    var elementNameStack: seq<string>
    const namespaceContext: NamespaceContextImpl

    function Settings(): S.Config
    {
      S.Config(indent, lineEnd, useCompactAttributes)
    }

    function State(): S.WriterState
      reads this
    {
      S.WriterState(inStartElement, inEmptyStartElement, isAfterText, elementNameStack, level, out)
    }

    ghost predicate Valid()
      reads this, namespaceContext
    {
      S.Consistent(State()) && namespaceContext.Valid()
    }

    /** A fresh writer: indentation "\t" unless one is given, nothing written, no tag open, no bindings. */
    constructor (indentation: Option<string>, useCompactAttributes: bool, lineEnd: string)
      ensures Valid()
      ensures Settings() == S.Config(if indentation.Some? then indentation.value else "\t", lineEnd, useCompactAttributes)
      ensures State() == S.WriterState(false, false, false, [], 0, [])
      ensures namespaceContext.Bindings() == EmptyTable && namespaceContext.suppliedContext == None
    {
      this.indent := if indentation.Some? then indentation.value else "\t";
      this.lineEnd := lineEnd;
      this.useCompactAttributes := useCompactAttributes;
      level := 0;
      out := [];
      inStartElement := false;
      inEmptyStartElement := false;
      isAfterText := false;
      elementNameStack := [];
      namespaceContext := new NamespaceContextImpl();
    }

    /** The sink's write: append, nothing else changes. */
    method Write(text: string)
      modifies this
      ensures out == old(out) + text
      ensures level == old(level) && elementNameStack == old(elementNameStack)
      ensures inStartElement == old(inStartElement) && inEmptyStartElement == old(inEmptyStartElement)
      ensures isAfterText == old(isAfterText)
    {
      out := out + text;
    }

    method SetIndentationLevel(newLevel: nat)
      modifies this
      ensures State() == old(State()).(level := newLevel)
    {
      level := newLevel;
    }

    method IncreaseIndentation()
      modifies this
      ensures State() == old(State()).(level := old(level) + 1)
    {
      level := level + 1;
    }

    /** The sink cannot go below level 0, so callers must have raised it first. */
    method DecreaseIndentation()
      requires level > 0
      modifies this
      ensures State() == old(State()).(level := old(level) - 1)
    {
      level := level - 1;
    }

    method WriteEOL()
      modifies this
      ensures State() == S.Apply(Settings(), old(State()), S.WriteEOL)
    {
      Write(S.LineBreak(Settings(), level));
      isAfterText := false;
    }

    method FinishStartElement()
      modifies this
      ensures State() == S.Finish(old(State()))
    {
      if inStartElement {
        if inEmptyStartElement {
          Write("/>");
          inEmptyStartElement := false;
        } else {
          Write(">");
        }
        inStartElement := false;
      }
    }

    /** The body the writeStartElement overloads share, for the name they push and write. */
    method StartElement(elementName: string)
      modifies this
      ensures State() == S.Opened(Settings(), old(State()), elementName)
    {
      FinishStartElement();
      inStartElement := true;
      inEmptyStartElement := false;
      elementNameStack := elementNameStack + [elementName];
      WriteEOL();
      ghost var start := out;
      Write("<");
      Write(elementName);
      S.Associate(start, "<", elementName);
      IncreaseIndentation();
      isAfterText := false;
    }

    method WriteStartElement(localName: string)
      requires Valid()
      modifies this
      ensures Valid()
      ensures State() == S.Apply(Settings(), old(State()), S.WriteStartElement(localName))
      ensures State() == S.Opened(Settings(), old(State()), localName)
    {
      StartElement(localName);
    }

    method WriteStartElementNs(namespaceURI: string, localName: string)
      requires Valid()
      modifies this
      ensures Valid()
      ensures State() == S.Apply(Settings(), old(State()), S.WriteStartElementNs(namespaceURI, localName))
      ensures State() == S.Opened(Settings(), old(State()), localName)
    {
      StartElement(localName);
    }

    method WriteStartElementPrefixed(prefix: Option<string>, localName: string, namespaceURI: string)
      requires Valid()
      modifies this
      ensures Valid()
      ensures State() == S.Apply(Settings(), old(State()), S.WriteStartElementPrefixed(prefix, localName, namespaceURI))
      ensures State() == S.Opened(Settings(), old(State()), S.QualifiedName(prefix, localName))
    {
      var elementName := S.QualifiedName(prefix, localName);
      StartElement(elementName);
    }

    method WriteEmptyElement(localName: string)
      requires Valid()
      modifies this
      ensures Valid()
      ensures State() == S.Apply(Settings(), old(State()), S.WriteEmptyElement(localName))
    {
      WriteStartElement(localName);
      inEmptyStartElement := true;
    }

    method WriteEmptyElementNs(namespaceURI: string, localName: string)
      requires Valid()
      modifies this
      ensures Valid()
      ensures State() == S.Apply(Settings(), old(State()), S.WriteEmptyElementNs(namespaceURI, localName))
    {
      WriteStartElementNs(namespaceURI, localName);
      inEmptyStartElement := true;
    }

    method WriteEmptyElementPrefixed(prefix: Option<string>, localName: string, namespaceURI: string)
      requires Valid()
      modifies this
      ensures Valid()
      ensures State() == S.Apply(Settings(), old(State()), S.WriteEmptyElementPrefixed(prefix, localName, namespaceURI))
    {
      WriteStartElementPrefixed(prefix, localName, namespaceURI);
      inEmptyStartElement := true;
    }

    /** Pops the innermost open element; with none open it fails after closing the tag and lowering the level. */
    method WriteEndElement() returns (err: Option<S.WriterError>)
      requires Valid() && level > 0
      modifies this
      ensures Valid()
      ensures State() == S.Apply(Settings(), old(State()), S.WriteEndElement)
      ensures err == S.Error(old(State()), S.WriteEndElement)
    {
      var isEmpty := inEmptyStartElement;
      FinishStartElement();
      DecreaseIndentation();
      if elementNameStack == [] {
        return Some(S.EmptyStackException);
      }
      var elementName := elementNameStack[|elementNameStack| - 1];
      elementNameStack := elementNameStack[..|elementNameStack| - 1];
      WriteClosingTag(elementName, isEmpty);
      err := None;
    }

    /** The rest of writeEndElement once the name is popped. */
    method WriteClosingTag(elementName: string, isEmpty: bool)
      modifies this
      ensures State() == S.ClosingTagWritten(Settings(), old(State()), elementName, isEmpty)
    {
      if !isEmpty {
        if !isAfterText {
          WriteEOL();
        }
        ghost var start := out;
        Write("</");
        Write(elementName);
        Write(">");
        S.Associate4(start, "</", elementName, ">");
      }
      isAfterText := false;
    }

    /** Clears the flags; fails when elements are still open. */
    method WriteEndDocument() returns (err: Option<S.WriterError>)
      requires Valid()
      modifies this
      ensures Valid()
      ensures State() == S.Apply(Settings(), old(State()), S.WriteEndDocument)
      ensures err == S.Error(old(State()), S.WriteEndDocument)
    {
      inEmptyStartElement := false;
      inStartElement := false;
      isAfterText := false;
      err := if elementNameStack == [] then None else Some(S.UnclosedElements);
    }

    /** What precedes every attribute name: a space in compact mode, a line break otherwise. */
    method WriteAttributeSeparator()
      modifies this
      ensures State() == if useCompactAttributes then S.Emit(old(State()), " ") else S.Eol(Settings(), old(State()))
    {
      if useCompactAttributes {
        Write(" ");
      } else {
        WriteEOL();
      }
    }

    /** The body the writeStartAttribute overloads share: a space or a line break, then name=". */
    method StartAttribute(name: string)
      modifies this
      ensures State() == S.AttributeStarted(Settings(), old(State()), name)
    {
      WriteAttributeSeparator();
      Write(name);
      Write("=\"");
    }

    method WriteStartAttribute(localName: string)
      requires Valid()
      modifies this
      ensures Valid()
      ensures State() == S.Apply(Settings(), old(State()), S.WriteStartAttribute(localName))
      ensures State() == S.AttributeStarted(Settings(), old(State()), localName)
    {
      StartAttribute(localName);
    }

    method WriteStartAttributeNs(namespaceURI: string, localName: string)
      requires Valid()
      modifies this
      ensures Valid()
      ensures State() == S.Apply(Settings(), old(State()), S.WriteStartAttributeNs(namespaceURI, localName))
      ensures State() == S.AttributeStarted(Settings(), old(State()), localName)
    {
      StartAttribute(localName);
    }

    method WriteStartAttributePrefixed(prefix: Option<string>, namespaceURI: string, localName: string)
      requires Valid()
      modifies this
      ensures Valid()
      ensures State() == S.Apply(Settings(), old(State()), S.WriteStartAttributePrefixed(prefix, namespaceURI, localName))
      ensures State() == S.AttributeStarted(Settings(), old(State()), S.QualifiedName(prefix, localName))
    {
      StartPrefixedAttribute(prefix, localName);
    }

    /** A space or a line break, then prefix:localName=" (the prefix and colon only for a non-empty prefix). */
    method StartPrefixedAttribute(prefix: Option<string>, localName: string)
      modifies this
      ensures State() == S.AttributeStarted(Settings(), old(State()), S.QualifiedName(prefix, localName))
    {
      WriteAttributeSeparator();
      ghost var start := out;
      ghost var prefixPart := if prefix.Some? && |prefix.value| >= 1 then prefix.value + ":" else "";
      if prefix.Some? && |prefix.value| >= 1 {
        Write(prefix.value);
        Write(":");
        S.Associate(start, prefix.value, ":");
      } else {
        assert start + prefixPart == start;
      }
      Write(localName);
      Write("=\"");
      S.Associate4(start, prefixPart, localName, "=\"");
      assert prefixPart + localName == S.QualifiedName(prefix, localName);
    }

    method WriteAttributeCharacters(text: string)
      requires Valid()
      modifies this
      ensures Valid()
      ensures State() == S.Apply(Settings(), old(State()), S.WriteAttributeCharacters(text))
      ensures State() == S.AttributeValue(old(State()), text)
    {
      Write(AttributeText(text));
    }

    method WriteAttributeEntityRef(entityName: Option<string>)
      requires Valid()
      modifies this
      ensures Valid()
      ensures State() == S.Apply(Settings(), old(State()), S.WriteAttributeEntityRef(entityName))
    {
      if entityName.Some? && |entityName.value| >= 1 {
        ghost var start := out;
        Write("&");
        Write(entityName.value);
        Write(";");
        S.Associate4(start, "&", entityName.value, ";");
      } else {
        assert S.EntityReference(entityName) == [];
      }
    }

    method EndAttribute()
      requires Valid()
      modifies this
      ensures Valid()
      ensures State() == S.Apply(Settings(), old(State()), S.EndAttribute)
      ensures State() == S.Emit(old(State()), "\"")
    {
      Write("\"");
    }

    method WriteAttribute(localName: string, value: string)
      requires Valid()
      modifies this
      ensures Valid()
      ensures State() == S.Apply(Settings(), old(State()), S.WriteAttribute(localName, value))
    {
      StartAttribute(localName);
      WriteValueAndQuote(value);
    }

    method WriteAttributeNs(namespaceURI: string, localName: string, value: string)
      requires Valid()
      modifies this
      ensures Valid()
      ensures State() == S.Apply(Settings(), old(State()), S.WriteAttributeNs(namespaceURI, localName, value))
    {
      StartAttribute(localName);
      WriteValueAndQuote(value);
    }

    method WriteAttributePrefixed(prefix: Option<string>, namespaceURI: string, localName: string, value: string)
      requires Valid()
      modifies this
      ensures Valid()
      ensures State() == S.Apply(Settings(), old(State()), S.WriteAttributePrefixed(prefix, namespaceURI, localName, value))
    {
      StartPrefixedAttribute(prefix, localName);
      WriteValueAndQuote(value);
    }

    /** What writeAttribute writes after the name: the value as writeAttributeCharacters writes it, then the closing quote. */
    method WriteValueAndQuote(value: string)
      modifies this
      ensures State() == S.Emit(S.AttributeValue(old(State()), value), "\"")
    {
      Write(AttributeText(value));
      Write("\"");
    }

    method WriteNamespace(prefix: string, namespaceURI: string)
      requires Valid()
      modifies this
      ensures Valid()
      ensures State() == S.Apply(Settings(), old(State()), S.WriteNamespace(prefix, namespaceURI))
    {
      DeclareNamespace(prefix, namespaceURI);
    }

    /** A line break, then xmlns:prefix="uri" with the URI escaped. */
    method DeclareNamespace(prefix: string, namespaceURI: string)
      modifies this
      ensures State() == S.Emit(S.Eol(Settings(), old(State())), "xmlns:" + prefix + "=\"" + EscapeXml10(namespaceURI) + "\"")
    {
      var escapedNamespaceURI := EscapeXml10(namespaceURI);
      WriteEOL();
      ghost var start := out;
      Write("xmlns:");
      Write(prefix);
      Write("=\"");
      Write(escapedNamespaceURI);
      Write("\"");
      S.Associate6(start, "xmlns:", prefix, "=\"", escapedNamespaceURI, "\"");
    }

    method WriteDefaultNamespace(namespaceURI: string)
      requires Valid()
      modifies this
      ensures Valid()
      ensures State() == S.Apply(Settings(), old(State()), S.WriteDefaultNamespace(namespaceURI))
    {
      DeclareDefaultNamespace(namespaceURI);
    }

    /** A line break, then xmlns="uri" with the URI escaped. */
    method DeclareDefaultNamespace(namespaceURI: string)
      modifies this
      ensures State() == S.Emit(S.Eol(Settings(), old(State())), "xmlns=\"" + EscapeXml10(namespaceURI) + "\"")
    {
      var escapedNamespaceURI := EscapeXml10(namespaceURI);
      WriteEOL();
      ghost var start := out;
      Write("xmlns=\"");
      Write(escapedNamespaceURI);
      Write("\"");
      S.Associate4(start, "xmlns=\"", escapedNamespaceURI, "\"");
    }

    method WriteComment(data: string)
      requires Valid()
      modifies this
      ensures Valid()
      ensures State() == S.Apply(Settings(), old(State()), S.WriteComment(data))
    {
      FinishStartElement();
      ghost var start := out;
      Write("<!--");
      Write(data);
      Write("-->");
      S.Associate4(start, "<!--", data, "-->");
    }

    method WriteProcessingInstruction(target: string)
      requires Valid()
      modifies this
      ensures Valid()
      ensures State() == S.Apply(Settings(), old(State()), S.WriteProcessingInstruction(target))
      ensures State() == S.Instruction(old(State()), target)
    {
      FinishStartElement();
      ghost var start := out;
      Write("<?");
      Write(target);
      Write("?>");
      S.Associate4(start, "<?", target, "?>");
    }

    /** As written, this overload does not close a pending start tag. */
    method WriteProcessingInstructionData(target: string, data: string)
      requires Valid()
      modifies this
      ensures Valid()
      ensures State() == S.Apply(Settings(), old(State()), S.WriteProcessingInstructionData(target, data))
    {
      WriteInstruction(target, data);
    }

    /** <?target data?>, written at once. */
    method WriteInstruction(target: string, data: string)
      modifies this
      ensures State() == S.InstructionWithData(old(State()), target, data)
    {
      ghost var start := out;
      Write("<?");
      Write(target);
      Write(" ");
      Write(data);
      Write("?>");
      S.Associate6(start, "<?", target, " ", data, "?>");
    }

    /** As written, the section opens with "<[CDATA[". */
    method WriteCData(data: string)
      requires Valid()
      modifies this
      ensures Valid()
      ensures State() == S.Apply(Settings(), old(State()), S.WriteCData(data))
    {
      FinishStartElement();
      ghost var start := out;
      Write("<[CDATA[");
      Write(data);
      Write("]]>");
      S.Associate4(start, "<[CDATA[", data, "]]>");
      isAfterText := true;
    }

    method WriteDTD(dtd: string)
      requires Valid()
      modifies this
      ensures Valid()
      ensures State() == S.Apply(Settings(), old(State()), S.WriteDTD(dtd))
    {
      Write(dtd);
    }

    method StartDTD(rootElementName: string)
      requires Valid()
      modifies this
      ensures Valid()
      ensures State() == S.Apply(Settings(), old(State()), S.StartDTD(rootElementName))
    {
      ghost var start := out;
      Write("<!DOCTYPE ");
      Write(rootElementName);
      Write(" [");
      S.Associate4(start, "<!DOCTYPE ", rootElementName, " [");
      IncreaseIndentation();
    }

    method EndDTD()
      requires Valid() && level > 0
      modifies this
      ensures Valid()
      ensures State() == S.Apply(Settings(), old(State()), S.EndDTD)
    {
      DecreaseIndentation();
      WriteEOL();
      Write("]>");
    }

    method WriteDtdEntity(name: string, value: string)
      requires Valid()
      modifies this
      ensures Valid()
      ensures State() == S.Apply(Settings(), old(State()), S.WriteDtdEntity(name, value))
    {
      DeclareEntity(name, value);
    }

    /** A line break, then <!ENTITY name "value"> with the value escaped. */
    method DeclareEntity(name: string, value: string)
      modifies this
      ensures State() == S.Emit(S.Eol(Settings(), old(State())), "<!ENTITY " + name + " \"" + EscapeXml10(value) + "\">")
    {
      WriteEOL();
      ghost var start := out;
      Write("<!ENTITY ");
      Write(name);
      Write(" \"");
      Write(EscapeXml10(value));
      Write("\">");
      S.Associate6(start, "<!ENTITY ", name, " \"", EscapeXml10(value), "\">");
    }

    method WriteEntityRef(name: Option<string>)
      requires Valid()
      modifies this
      ensures Valid()
      ensures State() == S.Apply(Settings(), old(State()), S.WriteEntityRef(name))
    {
      WriteReference(name);
    }

    /** Closes a pending start tag, then writes &name; for a non-empty name; text now precedes. */
    method WriteReference(name: Option<string>)
      modifies this
      ensures State() == S.Emit(S.Finish(old(State())), S.EntityReference(name)).(isAfterText := true)
    {
      FinishStartElement();
      ghost var finished := State();
      if name.Some? && |name.value| >= 1 {
        Write("&");
        Write(name.value);
        Write(";");
        S.Associate4(finished.out, "&", name.value, ";");
      } else {
        assert finished.out + S.EntityReference(name) == finished.out;
      }
      isAfterText := true;
      assert State() == S.Emit(finished, S.EntityReference(name)).(isAfterText := true);
    }

    method WriteStartDocument()
      requires Valid()
      modifies this
      ensures Valid()
      ensures State() == S.Apply(Settings(), old(State()), S.WriteStartDocument)
    {
      SetIndentationLevel(0);
      WriteProcessingInstruction("xml");
    }

    method WriteStartDocumentVersion(version: string)
      requires Valid()
      modifies this
      ensures Valid()
      ensures State() == S.Apply(Settings(), old(State()), S.WriteStartDocumentVersion(version))
    {
      SetIndentationLevel(0);
      WriteInstruction("xml", "version=\"" + version + "\"");
    }

    method WriteStartDocumentEncoding(encoding: Option<string>, version: string)
      requires Valid()
      modifies this
      ensures Valid()
      ensures State() == S.Apply(Settings(), old(State()), S.WriteStartDocumentEncoding(encoding, version))
    {
      WriteDeclaration(encoding, version);
    }

    /** Indentation back to level 0, then the declaration with the version and the encoding under its XML name. */
    method WriteDeclaration(encoding: Option<string>, version: string)
      modifies this
      ensures State() == S.InstructionWithData(old(State()).(level := 0), "xml", S.DeclarationData(encoding, version))
    {
      SetIndentationLevel(0);
      var xmlEncoding := encoding;
      if encoding == Some("UTF8") {
        xmlEncoding := Some("UTF-8");
      }
      if encoding == Some("UTF16") {
        xmlEncoding := Some("UTF-16");
      }
      assert xmlEncoding == if encoding.None? then None else Some(S.XmlEncodingName(encoding.value));
      var data := "version=\"" + version + (if xmlEncoding.None? then "" else "\" encoding=\"" + xmlEncoding.value) + "\"";
      assert data == S.DeclarationData(encoding, version);
      WriteInstruction("xml", data);
    }

    method WriteCharacters(text: string)
      requires Valid()
      modifies this
      ensures Valid()
      ensures State() == S.Apply(Settings(), old(State()), S.WriteCharacters(text))
    {
      FinishStartElement();
      Write(EscapeXml10(text));
      isAfterText := true;
    }

    /** String.copyValueOf rejects a range outside the array, after the pending tag is closed. */
    method WriteCharactersRange(text: seq<char>, start: int, len: int) returns (err: Option<S.WriterError>)
      requires Valid()
      modifies this
      ensures Valid()
      ensures State() == S.Apply(Settings(), old(State()), S.WriteCharactersRange(text, start, len))
      ensures err == S.Error(old(State()), S.WriteCharactersRange(text, start, len))
    {
      FinishStartElement();
      if !(0 <= start && 0 <= len && start + len <= |text|) {
        return Some(S.IndexOutOfBoundsException);
      }
      Write(EscapeXml10(text[start..start + len]));
      isAfterText := true;
      err := None;
    }

    method GetPrefix(uri: string) returns (r: Result<Option<string>, LookupError>)
      ensures r == LookupPrefix(namespaceContext.Bindings(), namespaceContext.suppliedContext, uri)
    {
      r := namespaceContext.GetPrefix(uri);
    }

    method SetPrefix(prefix: string, uri: string)
      requires Valid()
      modifies namespaceContext
      ensures Valid()
      ensures namespaceContext.Bindings() == Bind(old(namespaceContext.Bindings()), prefix, uri)
      ensures namespaceContext.suppliedContext == old(namespaceContext.suppliedContext)
    {
      namespaceContext.SetPrefix(prefix, uri);
    }

    method SetNamespaceContext(context: Option<Resolver>)
      requires Valid()
      modifies namespaceContext
      ensures Valid()
      ensures namespaceContext.suppliedContext == context
      ensures namespaceContext.Bindings() == old(namespaceContext.Bindings())
    {
      namespaceContext.SetNamespaceContext(context);
    }
  }
}
