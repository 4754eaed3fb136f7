# Indenting XML stream writer and string-length comparator, in Dafny

This project models two parts of the RDF toolkit's serialisation layer.

- `IndentingXMLStreamWriter` is the StAX `XMLStreamWriter` the toolkit uses to write RDF/XML. It keeps:
  - three flags: a start tag is still open (`inStartElement`), the open tag belongs to an empty element (`inEmptyStartElement`), and text was written last (`isAfterText`);
  - a stack of open element names;
  - a namespace binding table (`NamespaceContextImpl`).

  It writes through a sink that adds a line end and indentation on every `writeEOL`.
- `StringLengthComparator` orders strings longest first, with ties broken by `String.compareTo`.

## How the model is built

- `WriterSpec` describes the writer's state as a value: the flags, the stack, the sink's indentation level and everything written so far.
  - `Apply` gives the state each write call leaves.
  - `Error` gives the failure the call reports, if any.
  - Its lemmas state the properties of that state machine: tags are closed before content, the level tracks the element stack, the after-text flag, start/end pairs, the document declaration, and the end of the document.
- `Writer` holds the class `IndentingXMLStreamWriter`. Its fields are the ones the Java object updates. The sink is modelled inline as an append-only `out` string and a `level`.
  - Every public write method is proved to leave exactly the state `WriterSpec.Apply` gives for that call.
  - The three methods that can fail (`WriteEndElement`, `WriteEndDocument` and `WriteCharactersRange`) also return the error `WriterSpec.Error` gives.
- `Namespaces` holds the binding table.
  - The class `NamespaceContextImpl` has the two maps of the Java class.
  - Its methods are proved against the pure functions `Bind`, `LookupNamespaceUri`, `LookupPrefix` and `LookupPrefixes`.
  - Lemmas say what a table built by `setPrefix` calls answers.
- `XmlText` models what the writer does to text:
  - the five-entity escape of `StringEscapeUtils.escapeXml10`, with its inverse;
  - the attribute normalisation `replaceAll("\\s+", " ").trim()`, with Java's `\s` class and `trim()`'s "every character up to U+0020".
- `WriterDocuments` runs the writer over whole trees of elements, attributes, text and comments.
  - A tree walk issues `writeStartElement` or `writeEmptyElement`, one `writeAttribute` per attribute, the children, then `writeEndElement`.
  - None of these calls fails: a run of calls ends at the first call that reports an error, and the walk's run reaches its end.
  - The output is an independent reference rendering, with each element on its own line, indented by its depth.
  - Stack and level are restored after each walk.
- `StringLengthComparator` models `String.compareTo` over UTF-16 code units. It proves that `compare` is a total order that agrees with an independent definition of "longer first, then first differing unit".

Java `null` arguments that the source tests for are modelled as `Option`. Exceptions are modelled as `Result` or `Option<WriterError>` values.

The code is followed where it departs from what the writer is evidently meant to do:
- `writeCData` opens its section with `<[CDATA[`, not XML's `<![CDATA[`.
- The two-argument `writeProcessingInstruction` does not close a pending start tag, unlike every other content call. The instruction therefore lands inside the open tag.

Both behaviours are modelled as written. Lemmas `WriterSpec.CDataMarker` and `WriterSpec.InstructionWithDataInsideOpenTag` state them.

## Model

| member | source | states |
|---|---|---|
| Writer.IndentingXMLStreamWriter.constructor | src/main/java/org/edmcouncil/rdf_toolkit/writer/IndentingXMLStreamWriter.java:141-156 | A new writer uses indentation "\t" unless one is given, has nothing written, no tag open, level 0 and an empty binding table |
| Writer.IndentingXMLStreamWriter.SetIndentationLevel | src/main/java/org/edmcouncil/rdf_toolkit/writer/IndentingXMLStreamWriter.java:174 | Only the sink's level changes, to the given value |
| Writer.IndentingXMLStreamWriter.IncreaseIndentation | src/main/java/org/edmcouncil/rdf_toolkit/writer/IndentingXMLStreamWriter.java:176 | The level goes up by one; nothing else changes |
| Writer.IndentingXMLStreamWriter.DecreaseIndentation | src/main/java/org/edmcouncil/rdf_toolkit/writer/IndentingXMLStreamWriter.java:178 | The level goes down by one; the sink requires it to be positive |
| Writer.IndentingXMLStreamWriter.WriteEOL | src/main/java/org/edmcouncil/rdf_toolkit/writer/IndentingXMLStreamWriter.java:180-187 | Appends the line end and one indentation unit per level, and clears isAfterText |
| Writer.IndentingXMLStreamWriter.FinishStartElement | src/main/java/org/edmcouncil/rdf_toolkit/writer/IndentingXMLStreamWriter.java:241-255 | A pending tag is closed with "/>" if empty and ">" otherwise, and both flags are cleared; with no pending tag, nothing changes |
| Writer.IndentingXMLStreamWriter.WriteStartElement | src/main/java/org/edmcouncil/rdf_toolkit/writer/IndentingXMLStreamWriter.java:190-204 | Leaves Apply's state: the pending tag is closed, the name is pushed, then a new line, "<name", one level deeper, a start tag open and not empty |
| Writer.IndentingXMLStreamWriter.WriteStartElementNs | src/main/java/org/edmcouncil/rdf_toolkit/writer/IndentingXMLStreamWriter.java:207-221 | Same as the one-argument form; the namespace URI is ignored |
| Writer.IndentingXMLStreamWriter.WriteStartElementPrefixed | src/main/java/org/edmcouncil/rdf_toolkit/writer/IndentingXMLStreamWriter.java:224-239 | Same, for the name prefix:local, or local alone when the prefix is null or empty |
| Writer.IndentingXMLStreamWriter.WriteEmptyElement | src/main/java/org/edmcouncil/rdf_toolkit/writer/IndentingXMLStreamWriter.java:258-261 | writeStartElement, then the open tag is marked empty |
| Writer.IndentingXMLStreamWriter.WriteEmptyElementNs | src/main/java/org/edmcouncil/rdf_toolkit/writer/IndentingXMLStreamWriter.java:264-267 | writeStartElement with a namespace, then the open tag is marked empty |
| Writer.IndentingXMLStreamWriter.WriteEmptyElementPrefixed | src/main/java/org/edmcouncil/rdf_toolkit/writer/IndentingXMLStreamWriter.java:270-273 | The prefixed writeStartElement, then the open tag is marked empty |
| Writer.IndentingXMLStreamWriter.WriteEndElement | src/main/java/org/edmcouncil/rdf_toolkit/writer/IndentingXMLStreamWriter.java:276-292 | Closes the pending tag and lowers the level; pops the name; writes "</name>" (on a new line unless text came last) only if the element was not empty; with an empty stack, reports EmptyStackException |
| Writer.IndentingXMLStreamWriter.WriteEndDocument | src/main/java/org/edmcouncil/rdf_toolkit/writer/IndentingXMLStreamWriter.java:295-305 | Clears all three flags and writes nothing; fails exactly when elements are still open |
| Writer.IndentingXMLStreamWriter.WriteStartAttribute | src/main/java/org/edmcouncil/rdf_toolkit/writer/IndentingXMLStreamWriter.java:329-337 | A space in compact mode, otherwise a line break; then name=" |
| Writer.IndentingXMLStreamWriter.WriteStartAttributeNs | src/main/java/org/edmcouncil/rdf_toolkit/writer/IndentingXMLStreamWriter.java:339-347 | As the one-argument form; the namespace URI is ignored |
| Writer.IndentingXMLStreamWriter.WriteStartAttributePrefixed | src/main/java/org/edmcouncil/rdf_toolkit/writer/IndentingXMLStreamWriter.java:349-361 | As above, with "prefix:" before the name only for a non-null, non-empty prefix |
| Writer.IndentingXMLStreamWriter.StartPrefixedAttribute | src/main/java/org/edmcouncil/rdf_toolkit/writer/IndentingXMLStreamWriter.java:351-357 | The writes of the prefixed writeStartAttribute append the separator, then the qualified name, then =" |
| Writer.IndentingXMLStreamWriter.WriteAttributeCharacters | src/main/java/org/edmcouncil/rdf_toolkit/writer/IndentingXMLStreamWriter.java:363-370 | Appends the escaped value with whitespace runs collapsed and trimmed |
| Writer.IndentingXMLStreamWriter.WriteAttributeEntityRef | src/main/java/org/edmcouncil/rdf_toolkit/writer/IndentingXMLStreamWriter.java:372-382 | Appends &name; for a non-null, non-empty name; otherwise nothing changes |
| Writer.IndentingXMLStreamWriter.EndAttribute | src/main/java/org/edmcouncil/rdf_toolkit/writer/IndentingXMLStreamWriter.java:384-390 | Appends the closing quote |
| Writer.IndentingXMLStreamWriter.WriteAttribute | src/main/java/org/edmcouncil/rdf_toolkit/writer/IndentingXMLStreamWriter.java:393-397 | The attribute start, its normalised value, then the closing quote |
| Writer.IndentingXMLStreamWriter.WriteAttributeNs | src/main/java/org/edmcouncil/rdf_toolkit/writer/IndentingXMLStreamWriter.java:400-404 | Same as the two-argument form; the namespace URI is ignored |
| Writer.IndentingXMLStreamWriter.WriteAttributePrefixed | src/main/java/org/edmcouncil/rdf_toolkit/writer/IndentingXMLStreamWriter.java:407-411 | The prefixed start, the normalised value, then the closing quote |
| Writer.IndentingXMLStreamWriter.WriteValueAndQuote | src/main/java/org/edmcouncil/rdf_toolkit/writer/IndentingXMLStreamWriter.java:395-396 | Appends the normalised value, then the quote |
| Writer.IndentingXMLStreamWriter.WriteNamespace | src/main/java/org/edmcouncil/rdf_toolkit/writer/IndentingXMLStreamWriter.java:414-426 | A line break, then xmlns:prefix="escaped URI"; the tag state is unchanged |
| Writer.IndentingXMLStreamWriter.WriteDefaultNamespace | src/main/java/org/edmcouncil/rdf_toolkit/writer/IndentingXMLStreamWriter.java:429-439 | A line break, then xmlns="escaped URI" |
| Writer.IndentingXMLStreamWriter.WriteComment | src/main/java/org/edmcouncil/rdf_toolkit/writer/IndentingXMLStreamWriter.java:442-451 | Closes the pending tag, then writes &lt;!--data--&gt; unescaped; isAfterText is kept |
| Writer.IndentingXMLStreamWriter.WriteProcessingInstruction | src/main/java/org/edmcouncil/rdf_toolkit/writer/IndentingXMLStreamWriter.java:454-463 | Closes the pending tag, then writes &lt;?target?&gt; |
| Writer.IndentingXMLStreamWriter.WriteProcessingInstructionData | src/main/java/org/edmcouncil/rdf_toolkit/writer/IndentingXMLStreamWriter.java:466-476 | Writes &lt;?target data?&gt; at once, without closing a pending tag |
| Writer.IndentingXMLStreamWriter.WriteCData | src/main/java/org/edmcouncil/rdf_toolkit/writer/IndentingXMLStreamWriter.java:479-489 | Closes the pending tag, writes &lt;[CDATA[data]]&gt;, and sets isAfterText |
| Writer.IndentingXMLStreamWriter.WriteDTD | src/main/java/org/edmcouncil/rdf_toolkit/writer/IndentingXMLStreamWriter.java:491-498 | Appends the DTD text as given |
| Writer.IndentingXMLStreamWriter.StartDTD | src/main/java/org/edmcouncil/rdf_toolkit/writer/IndentingXMLStreamWriter.java:500-509 | Appends &lt;!DOCTYPE root [ and raises the level |
| Writer.IndentingXMLStreamWriter.EndDTD | src/main/java/org/edmcouncil/rdf_toolkit/writer/IndentingXMLStreamWriter.java:511-519 | Lowers the level, then a line break and ]&gt; |
| Writer.IndentingXMLStreamWriter.WriteDtdEntity | src/main/java/org/edmcouncil/rdf_toolkit/writer/IndentingXMLStreamWriter.java:521-532 | A line break, then &lt;!ENTITY name "escaped value"&gt; |
| Writer.IndentingXMLStreamWriter.WriteEntityRef | src/main/java/org/edmcouncil/rdf_toolkit/writer/IndentingXMLStreamWriter.java:534-547 | Closes the pending tag, writes &name; for a non-null, non-empty name, and sets isAfterText in every case |
| Writer.IndentingXMLStreamWriter.WriteStartDocument | src/main/java/org/edmcouncil/rdf_toolkit/writer/IndentingXMLStreamWriter.java:549-553 | Sets the level to 0, then writes the one-argument instruction &lt;?xml?&gt; |
| Writer.IndentingXMLStreamWriter.WriteStartDocumentVersion | src/main/java/org/edmcouncil/rdf_toolkit/writer/IndentingXMLStreamWriter.java:555-559 | Sets the level to 0, then writes &lt;?xml version="v"?&gt; through the two-argument instruction |
| Writer.IndentingXMLStreamWriter.WriteStartDocumentEncoding | src/main/java/org/edmcouncil/rdf_toolkit/writer/IndentingXMLStreamWriter.java:561-569 | Sets the level to 0, then writes the declaration with UTF8/UTF16 renamed to UTF-8/UTF-16, and no encoding for a null one |
| Writer.IndentingXMLStreamWriter.WriteCharacters | src/main/java/org/edmcouncil/rdf_toolkit/writer/IndentingXMLStreamWriter.java:571-580 | Closes the pending tag, appends the escaped text, and sets isAfterText |
| Writer.IndentingXMLStreamWriter.WriteCharactersRange | src/main/java/org/edmcouncil/rdf_toolkit/writer/IndentingXMLStreamWriter.java:582-591 | The same for text[start..start+len]; a bad range fails after the pending tag is closed |
| Writer.IndentingXMLStreamWriter.GetPrefix | src/main/java/org/edmcouncil/rdf_toolkit/writer/IndentingXMLStreamWriter.java:593-596 | Returns the binding table's getPrefix answer |
| Writer.IndentingXMLStreamWriter.SetPrefix | src/main/java/org/edmcouncil/rdf_toolkit/writer/IndentingXMLStreamWriter.java:598-601 | The table becomes Bind(table, prefix, uri) and stays well formed |
| Writer.IndentingXMLStreamWriter.SetNamespaceContext | src/main/java/org/edmcouncil/rdf_toolkit/writer/IndentingXMLStreamWriter.java:608-611 | Installs the supplied context; the bindings are unchanged |
| WriterSpec.QualifiedNameParts | src/main/java/org/edmcouncil/rdf_toolkit/writer/IndentingXMLStreamWriter.java:229 | The element name ends with the local name. It is the local name alone exactly when the prefix is null or empty, and prefix:local otherwise |
| WriterSpec.XmlEncodingName | src/main/java/org/edmcouncil/rdf_toolkit/writer/IndentingXMLStreamWriter.java:565-567 | UTF8 becomes UTF-8 and UTF16 becomes UTF-16; every other name is kept; the result is never an alias |
| WriterSpec.FinishClosesOnce | src/main/java/org/edmcouncil/rdf_toolkit/writer/IndentingXMLStreamWriter.java:241-255 | Appends "/>" or ">" only while a tag is open, clears both flags, and is idempotent |
| WriterSpec.FinishAppends | src/main/java/org/edmcouncil/rdf_toolkit/writer/IndentingXMLStreamWriter.java:241-255 | Closing a pending tag only appends to the output |
| WriterSpec.ApplyAppends | src/main/java/org/edmcouncil/rdf_toolkit/writer/IndentingXMLStreamWriter.java:180-591 | Every write call only appends: the old output is a prefix of the new |
| WriterSpec.ApplyKeepsConsistent | src/main/java/org/edmcouncil/rdf_toolkit/writer/IndentingXMLStreamWriter.java:241-305 | Every call keeps the rule that the empty mark is set only while a start tag is open |
| WriterSpec.PendingTagClosedFirst | src/main/java/org/edmcouncil/rdf_toolkit/writer/IndentingXMLStreamWriter.java:190-292 | Element, comment, PI, CDATA, entity-ref and character calls write the closing ">" or "/>" before anything of their own. Afterwards a tag is open exactly when the call opens one |
| WriterSpec.OtherCallsKeepTagState | src/main/java/org/edmcouncil/rdf_toolkit/writer/IndentingXMLStreamWriter.java:329-532 | Attribute, namespace, two-argument PI, DTD and declaration calls leave both tag flags as they were |
| WriterSpec.LevelTracksStack | src/main/java/org/edmcouncil/rdf_toolkit/writer/IndentingXMLStreamWriter.java:190-292 | For calls that report no error, apart from the DTD and start-document calls, level minus stack depth is invariant. Opening pushes one name; writeEndElement pops the top |
| WriterSpec.StartElementPushes | src/main/java/org/edmcouncil/rdf_toolkit/writer/IndentingXMLStreamWriter.java:195-230 | Each writeStartElement overload pushes the name it writes (the qualified one for the prefixed form), and each raises the level by one |
| WriterSpec.EndElementOnEmptyStack | src/main/java/org/edmcouncil/rdf_toolkit/writer/IndentingXMLStreamWriter.java:276-292 | writeEndElement fails exactly when the stack is empty; the pending tag is then closed and the level lowered |
| WriterSpec.ClosingTag | src/main/java/org/edmcouncil/rdf_toolkit/writer/IndentingXMLStreamWriter.java:282-288 | For a non-empty element, the output is closed tag, then a line break unless text came last, then &lt;/name&gt;; isAfterText ends false |
| WriterSpec.EmptyElementThenEnd | src/main/java/org/edmcouncil/rdf_toolkit/writer/IndentingXMLStreamWriter.java:258-292 | writeEmptyElement then writeEndElement writes one self-closed tag on a new line and restores stack, level and flags |
| WriterSpec.StartElementThenEnd | src/main/java/org/edmcouncil/rdf_toolkit/writer/IndentingXMLStreamWriter.java:190-292 | writeStartElement then writeEndElement writes &lt;name&gt; and &lt;/name&gt; on separate lines and restores stack, level and flags |
| WriterSpec.StartDTDThenEnd | src/main/java/org/edmcouncil/rdf_toolkit/writer/IndentingXMLStreamWriter.java:500-519 | startDTD then endDTD writes &lt;!DOCTYPE root [, a line break at the starting level, then ]&gt;. The level is restored; the stack and tag flags are untouched |
| WriterSpec.AfterTextFlag | src/main/java/org/edmcouncil/rdf_toolkit/writer/IndentingXMLStreamWriter.java:180-591 | For calls that report no error: characters, entity refs and CDATA set isAfterText. Element calls, writeEOL and writeEndDocument clear it. Comments and PIs keep it |
| WriterSpec.StartDocumentDeclaration | src/main/java/org/edmcouncil/rdf_toolkit/writer/IndentingXMLStreamWriter.java:561-569 | The declaration's exact text for a null and a non-null encoding, written at level 0 |
| WriterSpec.InstructionWithDataInsideOpenTag | src/main/java/org/edmcouncil/rdf_toolkit/writer/IndentingXMLStreamWriter.java:466-476 | The two-argument PI writes inside an open start tag and leaves it open |
| WriterSpec.CDataMarker | src/main/java/org/edmcouncil/rdf_toolkit/writer/IndentingXMLStreamWriter.java:479-489 | writeCData writes "<[CDATA[" + data + "]]>" after closing the pending tag |
| WriterSpec.EndDocumentClears | src/main/java/org/edmcouncil/rdf_toolkit/writer/IndentingXMLStreamWriter.java:295-305 | writeEndDocument clears all flags and writes nothing; the assertion fails exactly when elements remain open |
| WriterDocuments.WriteAttributes | src/main/java/org/edmcouncil/rdf_toolkit/writer/IndentingXMLStreamWriter.java:393-397 | writeAttribute calls change neither the level, nor the stack, nor the tag flags |
| WriterDocuments.WriteNode | src/main/java/org/edmcouncil/rdf_toolkit/writer/IndentingXMLStreamWriter.java:190-292 | The calls that write one node restore the level and the stack |
| WriterDocuments.WriteNodes | src/main/java/org/edmcouncil/rdf_toolkit/writer/IndentingXMLStreamWriter.java:190-292 | The same for a sequence of sibling nodes |
| WriterDocuments.WriteAttributesRender | src/main/java/org/edmcouncil/rdf_toolkit/writer/IndentingXMLStreamWriter.java:329-411 | writeAttribute calls append the reference rendering of the attributes and change nothing else |
| WriterDocuments.WriteNodeRenders | src/main/java/org/edmcouncil/rdf_toolkit/writer/IndentingXMLStreamWriter.java:190-292 | Writing a node appends its reference rendering after the closed pending tag, leaves no tag open, and sets isAfterText as the node's last text or comment decides |
| WriterDocuments.WriteNodesRender | src/main/java/org/edmcouncil/rdf_toolkit/writer/IndentingXMLStreamWriter.java:190-292 | Writing siblings appends their renderings in order |
| WriterDocuments.CallsRun | src/main/java/org/edmcouncil/rdf_toolkit/writer/IndentingXMLStreamWriter.java:190-292 | The calls a tree walk issues for a node are all enabled and leave the state WriteNode gives |
| WriterDocuments.RunStopsAtFailure | src/main/java/org/edmcouncil/rdf_toolkit/writer/IndentingXMLStreamWriter.java:276-305 | A call that reports an error (an empty stack at writeEndElement, open elements at writeEndDocument, a bad range) ends the sequence with no final state |
| WriterDocuments.RunConcat | src/main/java/org/edmcouncil/rdf_toolkit/writer/IndentingXMLStreamWriter.java:190-305 | Running two call sequences one after the other is running their concatenation |
| WriterDocuments.DocumentRendered | src/main/java/org/edmcouncil/rdf_toolkit/writer/IndentingXMLStreamWriter.java:190-305 | A whole document written on a fresh writer never fails: no call reports an error or is refused. Its output is the reference rendering, and it ends with no element open, level 0 and no tag pending |
| Namespaces.NamespaceContextImpl.constructor | src/main/java/org/edmcouncil/rdf_toolkit/writer/IndentingXMLStreamWriter.java:46-50 | A new table is empty, well formed, and has no supplied context |
| Namespaces.NamespaceContextImpl.SetPrefix | src/main/java/org/edmcouncil/rdf_toolkit/writer/IndentingXMLStreamWriter.java:52-58 | Rebinds the prefix and appends it to the URI's list, creating the list if needed; the table stays well formed |
| Namespaces.NamespaceContextImpl.SetNamespaceContext | src/main/java/org/edmcouncil/rdf_toolkit/writer/IndentingXMLStreamWriter.java:64-66 | Installs the supplied context; the bindings are unchanged |
| Namespaces.NamespaceContextImpl.GetNamespaceURI | src/main/java/org/edmcouncil/rdf_toolkit/writer/IndentingXMLStreamWriter.java:69-75 | The supplied context's non-null answer, else the table's binding, else null |
| Namespaces.NamespaceContextImpl.GetPrefix | src/main/java/org/edmcouncil/rdf_toolkit/writer/IndentingXMLStreamWriter.java:78-89 | The supplied answer, else the first listed prefix; null for an empty list; NullPointerException for an unbound URI |
| Namespaces.NamespaceContextImpl.GetPrefixes | src/main/java/org/edmcouncil/rdf_toolkit/writer/IndentingXMLStreamWriter.java:92-103 | As getPrefix, with the whole list |
| Namespaces.BindKeepsWellFormed | src/main/java/org/edmcouncil/rdf_toolkit/writer/IndentingXMLStreamWriter.java:52-58 | setPrefix keeps every list non-empty and the two maps consistent with each other |
| Namespaces.BindThenLookupUri | src/main/java/org/edmcouncil/rdf_toolkit/writer/IndentingXMLStreamWriter.java:52-75 | After setPrefix(p, u), getNamespaceURI(p) is u unless the supplied context answers; other prefixes are unaffected |
| Namespaces.WellFormedHasNoEmptyList | src/main/java/org/edmcouncil/rdf_toolkit/writer/IndentingXMLStreamWriter.java:84-101 | In a table built by setPrefix, the empty-list branches of getPrefix and getPrefixes are unreachable |
| Namespaces.UnboundUriThrows | src/main/java/org/edmcouncil/rdf_toolkit/writer/IndentingXMLStreamWriter.java:83-84 | getPrefix of a never-bound URI, with no supplied answer, throws NullPointerException |
| Namespaces.BindAllLists | src/main/java/org/edmcouncil/rdf_toolkit/writer/IndentingXMLStreamWriter.java:52-58 | After any setPrefix sequence, each URI's list is exactly the prefixes bound to it, in binding order |
| Namespaces.BindAllEarliestPrefix | src/main/java/org/edmcouncil/rdf_toolkit/writer/IndentingXMLStreamWriter.java:78-89 | With no supplied context, getPrefix(u) is the earliest prefix ever bound to u, and throws if there is none |
| Namespaces.BindAllAllPrefixes | src/main/java/org/edmcouncil/rdf_toolkit/writer/IndentingXMLStreamWriter.java:92-103 | With no supplied context, getPrefixes(u) yields every prefix bound to u, in order, and throws if there is none |
| Namespaces.BindAllLastUri | src/main/java/org/edmcouncil/rdf_toolkit/writer/IndentingXMLStreamWriter.java:69-75 | With no supplied context, getNamespaceURI(p) is the URI of the last setPrefix of p, or null |
| XmlText.EscapeLeavesNoDelimiters | src/main/java/org/edmcouncil/rdf_toolkit/writer/IndentingXMLStreamWriter.java:575 | Escaped text contains no &lt;, &gt;, " or ' |
| XmlText.UnescapeEscapedChar | src/main/java/org/edmcouncil/rdf_toolkit/writer/IndentingXMLStreamWriter.java:575 | Unescaping an escaped character followed by more text gives the character back first |
| XmlText.UnescapeEscape | src/main/java/org/edmcouncil/rdf_toolkit/writer/IndentingXMLStreamWriter.java:575 | The modelled five-entity escape loses nothing: unescape(escape(s)) == s |
| XmlText.SkipSpaces | src/main/java/org/edmcouncil/rdf_toolkit/writer/IndentingXMLStreamWriter.java:366 | Drops exactly the leading \s run: the result is a suffix that does not start with whitespace |
| XmlText.CollapseShape | src/main/java/org/edmcouncil/rdf_toolkit/writer/IndentingXMLStreamWriter.java:366 | After replaceAll("\\s+", " "): no two adjacent whitespace characters, every whitespace is a space, empty iff the input is, starts with whitespace iff the input does |
| XmlText.CollapseKeepsVisible | src/main/java/org/edmcouncil/rdf_toolkit/writer/IndentingXMLStreamWriter.java:366 | Collapsing keeps every character above U+0020, in order |
| XmlText.CollapseKeepsQuoteSafe | src/main/java/org/edmcouncil/rdf_toolkit/writer/IndentingXMLStreamWriter.java:366 | Collapsing introduces no &lt; and no " |
| XmlText.TrimStartShape | src/main/java/org/edmcouncil/rdf_toolkit/writer/IndentingXMLStreamWriter.java:366 | trim's front half drops only characters up to U+0020 and stops at the first it must keep |
| XmlText.TrimEndShape | src/main/java/org/edmcouncil/rdf_toolkit/writer/IndentingXMLStreamWriter.java:366 | trim's back half does the same at the end |
| XmlText.TrimSlice | src/main/java/org/edmcouncil/rdf_toolkit/writer/IndentingXMLStreamWriter.java:366 | trim() keeps the slice between the blank prefix and the blank suffix, with visible ends |
| XmlText.TrimKeepsVisible | src/main/java/org/edmcouncil/rdf_toolkit/writer/IndentingXMLStreamWriter.java:366 | Trimming keeps every visible character, in order |
| XmlText.AttributeTextNormalised | src/main/java/org/edmcouncil/rdf_toolkit/writer/IndentingXMLStreamWriter.java:363-370 | An attribute value as written has no double whitespace, no whitespace at either end and no &lt; or ", and keeps every visible character of the escaped value |
| StringLengthComparator.CompareTo | src/main/java/org/edmcouncil/rdf_toolkit/comparator/StringLengthComparator.java:47 | String.compareTo is zero exactly when the two strings are equal |
| StringLengthComparator.Compare | src/main/java/org/edmcouncil/rdf_toolkit/comparator/StringLengthComparator.java:35-48 | Throws NullPointerException with the source's messages exactly when an argument is null; returns zero exactly for equal strings |
| StringLengthComparator.LongerComesFirst | src/main/java/org/edmcouncil/rdf_toolkit/comparator/StringLengthComparator.java:42-43 | A longer first string gives -1 |
| StringLengthComparator.ShorterComesLast | src/main/java/org/edmcouncil/rdf_toolkit/comparator/StringLengthComparator.java:44-45 | A shorter first string gives 1 |
| StringLengthComparator.EqualLengthUsesCompareTo | src/main/java/org/edmcouncil/rdf_toolkit/comparator/StringLengthComparator.java:46-47 | Equal lengths defer to compareTo |
| StringLengthComparator.CompareToAntisymmetric | src/main/java/org/edmcouncil/rdf_toolkit/comparator/StringLengthComparator.java:47 | compareTo(b, a) == -compareTo(a, b) |
| StringLengthComparator.CompareToTransitive | src/main/java/org/edmcouncil/rdf_toolkit/comparator/StringLengthComparator.java:47 | compareTo is transitive on "less than" |
| StringLengthComparator.CompareToNegativeIffFirstDifferenceSmaller | src/main/java/org/edmcouncil/rdf_toolkit/comparator/StringLengthComparator.java:47 | For equal lengths, compareTo is negative exactly when the first differing code unit is smaller |
| StringLengthComparator.CompareReflexive | src/main/java/org/edmcouncil/rdf_toolkit/comparator/StringLengthComparator.java:35-48 | compare(s, s) is zero |
| StringLengthComparator.CompareZeroIffEqual | src/main/java/org/edmcouncil/rdf_toolkit/comparator/StringLengthComparator.java:35-48 | compare is zero exactly for equal strings |
| StringLengthComparator.CompareAntisymmetric | src/main/java/org/edmcouncil/rdf_toolkit/comparator/StringLengthComparator.java:35-48 | sign(compare(a, b)) == -sign(compare(b, a)) |
| StringLengthComparator.CompareTransitive | src/main/java/org/edmcouncil/rdf_toolkit/comparator/StringLengthComparator.java:35-48 | a before b and b before c give a before c |
| StringLengthComparator.CompareNegativeIffBefore | src/main/java/org/edmcouncil/rdf_toolkit/comparator/StringLengthComparator.java:35-48 | compare(a, b) < 0 exactly when a is longer, or equally long with a smaller first differing unit |

## Left out

- The byte-level output path is not modelled. This covers the `OutputStream` constructors, the charset lookup, `flush()` and `close()`. These are I/O; the sink is an in-memory string.
- `IndentingWriter` itself is not part of this model. Its `writeEOL` is taken as "line end, then the indentation unit once per level". Its level is taken as never negative, so `writeEndElement` and `endDTD` require a positive level.
- `StringEscapeUtils.escapeXml10` is modelled by its five entity escapes only, because the library is outside the repository. Not modelled:
  - its removal of characters XML 1.0 forbids, which is why the round trip holds only for the modelled escape;
  - its numeric character references for U+007F-U+0084 and U+0086-U+009F;
  - its handling of unpaired surrogates.
- `setDefaultNamespace` is not modelled. It stores a URI that no other method reads.
- `getNamespaceContext`, `getProperty` (always null), `getXmlEncoding`, `getJavaEncoding` and `getIndentationString` are not modelled. They are accessors with no behaviour to prove.
- `setIndentationString` is not modelled. The indentation unit is fixed at construction (`const indent`), so the model cannot express a writer whose later `writeEOL` calls write a new unit.
- The supplied `NamespaceContext` is modelled as three given functions. Its own behaviour is foreign code.
- Exceptions thrown by the sink and the `XMLStreamException` wrapping are not modelled. The modelled failures are the empty stack, the end-of-document assertion and a bad character range. Each is returned as a value, with the state left as the Java code leaves it when it throws.
- Writer.IndentingXMLStreamWriter.WriteEndDocument: the Java `assert` only fires when assertions are enabled. The model always reports the failure and does not model the disabled-assertion run.
- Null strings are modelled only where the source tests for them: prefixes, entity names, the encoding and the comparator's arguments. Every other argument is taken as non-null. This includes the prefixes and URIs that `setPrefix`, `getNamespaceURI` and `getPrefix` would store in or look up from their `HashMap`s.
- Strings are sequences of Dafny characters (Unicode scalar values). Only the comparator models UTF-16 code units. Every other string is taken as a sequence of characters, so a supplementary character counts as one element where Java counts two.
- Writer.IndentingXMLStreamWriter.WriteCharactersRange: `start` and `len` count Dafny characters, not UTF-16 code units as `String.copyValueOf` does. For text holding a supplementary character, the model accepts, rejects or slices a range differently from Java. For example, U+1F600 with start 0 and length 2 is rejected here but written by Java. Length 1 passes Java's range check and hands a lone surrogate to the escape; the model writes the whole character.
