/**
 * Whole documents written through the writer's API: a caller that walks a
 * tree of elements, attributes, text and comments issues writeStartElement
 * (or writeEmptyElement), one writeAttribute per attribute, the children,
 * then writeEndElement. Such well-nested call sequences restore the element
 * stack and the indentation level, and what reaches the sink is a
 * reference rendering in which every element sits on its own line,
 * indented by its depth.
 */
module WriterDocuments {
  import opened XmlText
  import opened Wrappers
  import opened WriterSpec

  datatype Attribute = Attribute(name: string, value: string)

  datatype Node =
    | Element(name: string, attributes: seq<Attribute>, children: seq<Node>)
    | EmptyElement(name: string, attributes: seq<Attribute>)
    | Text(text: string)
    | Comment(data: string)

  /*
   * Each write call a document walk makes, as the state Apply gives for it,
   * spelled out so that the walk below need not go through the whole call
   * table: one lemma per call.
   */

  lemma StartElementCall(c: Config, s: WriterState, name: string)
    ensures Apply(c, s, WriteStartElement(name)) == Opened(c, s, name)
  {
  }

  lemma EmptyElementCall(c: Config, s: WriterState, name: string)
    ensures Apply(c, s, WriteEmptyElement(name)) == Opened(c, s, name).(inEmptyStartElement := true)
  {
  }

  lemma AttributeCall(c: Config, s: WriterState, name: string, value: string)
    ensures Apply(c, s, WriteAttribute(name, value)) == AttributeWritten(c, s, name, value)
  {
  }

  lemma CharactersCall(c: Config, s: WriterState, text: string)
    ensures Apply(c, s, WriteCharacters(text)) == Emit(Finish(s), EscapeXml10(text)).(isAfterText := true)
  {
  }

  lemma CommentCall(c: Config, s: WriterState, data: string)
    ensures Apply(c, s, WriteComment(data)) == Emit(Finish(s), "<!--" + data + "-->")
  {
  }

  lemma EndDocumentCall(c: Config, s: WriterState)
    ensures Apply(c, s, WriteEndDocument) == s.(inEmptyStartElement := false, inStartElement := false, isAfterText := false)
  {
  }

  lemma EndElementCall(c: Config, s: WriterState)
    requires s.level > 0
    ensures Apply(c, s, WriteEndElement) == Closed(c, s)
  {
  }

  /** One writeAttribute(name, value) call per attribute, in order. */
  function WriteAttributes(c: Config, s: WriterState, attributes: seq<Attribute>): (r: WriterState)
    ensures r.level == s.level && r.elementNameStack == s.elementNameStack
    ensures r.inStartElement == s.inStartElement && r.inEmptyStartElement == s.inEmptyStartElement
    decreases attributes
  {
    if attributes == [] then s
    else WriteAttributes(c, AttributeWritten(c, s, attributes[0].name, attributes[0].value), attributes[1..])
  }

  /**
   * The calls that write one node (writeStartElement or writeEmptyElement,
   * the attributes, the children, writeEndElement; or writeCharacters; or
   * writeComment); the level and the stack are back where they were afterwards.
   */
  function WriteNode(c: Config, s: WriterState, node: Node): (r: WriterState)
    ensures r.level == s.level && r.elementNameStack == s.elementNameStack
    decreases node
  {
    match node
    case Element(name, attributes, children) =>
      var filled := WriteNodes(c, WriteAttributes(c, Opened(c, s, name), attributes), children);
      Closed(c, filled)
    case EmptyElement(name, attributes) =>
      Closed(c, WriteAttributes(c, Opened(c, s, name).(inEmptyStartElement := true), attributes))
    case Text(text) => Emit(Finish(s), EscapeXml10(text)).(isAfterText := true)
    case Comment(data) => Emit(Finish(s), "<!--" + data + "-->")
  }

  /** The calls that write a sequence of sibling nodes, first to last. */
  function WriteNodes(c: Config, s: WriterState, nodes: seq<Node>): (r: WriterState)
    ensures r.level == s.level && r.elementNameStack == s.elementNameStack
    decreases nodes
  {
    if nodes == [] then s else WriteNodes(c, WriteNode(c, s, nodes[0]), nodes[1..])
  }

  /** One attribute as it appears in the start tag, for an element whose attributes sit at the given level. */
  function RenderAttribute(c: Config, a: Attribute, level: nat): string
  {
    (if c.useCompactAttributes then " " else LineBreak(c, level)) + a.name + "=\"" + AttributeText(a.value) + "\""
  }

  function RenderAttributes(c: Config, attributes: seq<Attribute>, level: nat): string
  {
    if attributes == [] then [] else RenderAttribute(c, attributes[0], level) + RenderAttributes(c, attributes[1..], level)
  }

  /** Whether text was written last: text sets it, a comment keeps it, an element clears it. */
  function NodeAfterText(node: Node, before: bool): bool
  {
    match node
    case Text(_) => true
    case Comment(_) => before
    case _ => false
  }

  function AfterText(nodes: seq<Node>, before: bool): bool
  {
    if nodes == [] then before else AfterText(nodes[1..], NodeAfterText(nodes[0], before))
  }

  /**
   * The reference rendering of a node at an indentation level: an element
   * starts on a new line at its level with its attributes one level deeper,
   * its children one level deeper still than the element, and its closing
   * tag on a line of its own unless text came last.
   */
  function Render(c: Config, node: Node, level: nat): string
    decreases node
  {
    match node
    case Element(name, attributes, children) =>
      LineBreak(c, level) + "<" + name + RenderAttributes(c, attributes, level + 1) + ">"
      + RenderNodes(c, children, level + 1)
      + (if AfterText(children, false) then "" else LineBreak(c, level)) + "</" + name + ">"
    case EmptyElement(name, attributes) =>
      LineBreak(c, level) + "<" + name + RenderAttributes(c, attributes, level + 1) + "/>"
    case Text(text) => EscapeXml10(text)
    case Comment(data) => "<!--" + data + "-->"
  }

  function RenderNodes(c: Config, nodes: seq<Node>, level: nat): string
    decreases nodes
  {
    if nodes == [] then [] else Render(c, nodes[0], level) + RenderNodes(c, nodes[1..], level)
  }

  /** Inside an open start tag, writeAttribute calls append the rendered attributes and change nothing else. */
  lemma {:induction false} WriteAttributesRender(c: Config, s: WriterState, attributes: seq<Attribute>)
    requires !s.isAfterText
    ensures WriteAttributes(c, s, attributes) == s.(out := s.out + RenderAttributes(c, attributes, s.level))
    decreases attributes
  {
    if attributes != [] {
      var a := attributes[0];
      var next := AttributeWritten(c, s, a.name, a.value);
      AttributeWrites(c, s, a);
      WriteAttributesRender(c, next, attributes[1..]);
      Associate(s.out, RenderAttribute(c, a, s.level), RenderAttributes(c, attributes[1..], s.level));
    }
  }

  lemma AttributeWrites(c: Config, s: WriterState, a: Attribute)
    requires !s.isAfterText
    ensures AttributeWritten(c, s, a.name, a.value) == s.(out := s.out + RenderAttribute(c, a, s.level))
  {
    var sep := if c.useCompactAttributes then " " else LineBreak(c, s.level);
    var named := sep + a.name + "=\"";
    var value := AttributeText(a.value);
    Associate(s.out, sep, a.name + "=\"");
    Associate(sep, a.name, "=\"");
    var started := AttributeStarted(c, s, a.name);
    assert started == s.(out := s.out + named);
    Associate(s.out, named, value);
    Associate(s.out, named + value, "\"");
  }

  /**
   * Writing a node closes the pending tag, then appends the node's
   * rendering at the current level; no tag is left open, and the level and
   * stack are restored.
   */
  lemma {:induction false} WriteNodeRenders(c: Config, s: WriterState, node: Node)
    requires Consistent(s)
    ensures var r := WriteNode(c, s, node);
      && r.out == Finish(s).out + Render(c, node, s.level)
      && !r.inStartElement && !r.inEmptyStartElement
      && r.isAfterText == NodeAfterText(node, s.isAfterText)
    decreases node, 1
  {
    match node
    case Element(_, _, _) => ElementRenders(c, s, node);
    case EmptyElement(_, _) => EmptyElementRenders(c, s, node);
    case Text(_) =>
    case Comment(_) =>
  }

  /** writeStartElement: the start of the tag on a new line, one level deeper, one name pushed. */
  lemma StartTagWritten(c: Config, s: WriterState, name: string)
    ensures var r := Opened(c, s, name);
      && r == Finish(s).(out := Finish(s).out + (LineBreak(c, s.level) + "<" + name),
                         inStartElement := true, inEmptyStartElement := false, isAfterText := false,
                         level := s.level + 1, elementNameStack := s.elementNameStack + [name])
  {
    Associate(Finish(s).out, LineBreak(c, s.level), "<" + name);
    Associate(LineBreak(c, s.level), "<", name);
  }

  /** writeEndElement right after an empty start tag (and its attributes): "/>", the name popped, the level restored. */
  lemma EmptyTagClosed(c: Config, t: WriterState)
    requires t.inStartElement && t.inEmptyStartElement && t.level > 0 && t.elementNameStack != []
    ensures Closed(c, t) ==
      t.(out := t.out + "/>", inStartElement := false, inEmptyStartElement := false, isAfterText := false,
         level := t.level - 1, elementNameStack := t.elementNameStack[..|t.elementNameStack| - 1])
  {
  }

  lemma {:induction false} EmptyElementRenders(c: Config, s: WriterState, node: Node)
    requires Consistent(s) && node.EmptyElement?
    ensures var r := WriteNode(c, s, node);
      && r.out == Finish(s).out + Render(c, node, s.level)
      && !r.inStartElement && !r.inEmptyStartElement && !r.isAfterText
  {
    var name, attributes := node.name, node.attributes;
    var started := Opened(c, s, name).(inEmptyStartElement := true);
    var tagged := WriteAttributes(c, started, attributes);
    var start := LineBreak(c, s.level) + "<" + name;
    var tag := start + RenderAttributes(c, attributes, s.level + 1);
    StartTagWritten(c, s, name);
    WriteAttributesRender(c, started, attributes);
    assert tagged.out == Finish(s).out + start + RenderAttributes(c, attributes, s.level + 1);
    EmptyTagClosed(c, tagged);
    Associate4(Finish(s).out, start, RenderAttributes(c, attributes, s.level + 1), "/>");
    assert node == EmptyElement(name, attributes);
    assert Render(c, node, s.level) == tag + "/>";
    assert WriteNode(c, s, node) == Closed(c, tagged);
  }

  lemma {:induction false} ElementRenders(c: Config, s: WriterState, node: Node)
    requires Consistent(s) && node.Element?
    ensures var r := WriteNode(c, s, node);
      && r.out == Finish(s).out + Render(c, node, s.level)
      && !r.inStartElement && !r.inEmptyStartElement && !r.isAfterText
    decreases node, 0
  {
    var name, attributes, children := node.name, node.attributes, node.children;
    var tagged := WriteAttributes(c, Opened(c, s, name), attributes);
    StartTagRenders(c, s, name, attributes);
    WriteNodesRender(c, tagged, children);
    var filled := WriteNodes(c, tagged, children);
    assert !filled.inEmptyStartElement;
    ElementAssembled(c, Finish(s).out, s.level, name, attributes, children, filled);
    assert node == Element(name, attributes, children);
    assert WriteNode(c, s, node) == Closed(c, filled);
  }

  /** The pieces of an element's output, put together: start tag, children, closing tag. */
  lemma ElementAssembled(c: Config, written: string, level: nat, name: string,
                         attributes: seq<Attribute>, children: seq<Node>, filled: WriterState)
    requires filled.level == level + 1 && filled.elementNameStack != []
    requires filled.elementNameStack[|filled.elementNameStack| - 1] == name
    requires !filled.inEmptyStartElement && filled.isAfterText == AfterText(children, false)
    requires Finish(filled).out == written + (LineBreak(c, level) + "<" + name + RenderAttributes(c, attributes, level + 1) + ">")
      + RenderNodes(c, children, level + 1)
    ensures Closed(c, filled).out == written + Render(c, Element(name, attributes, children), level)
    ensures !Closed(c, filled).inStartElement && !Closed(c, filled).inEmptyStartElement && !Closed(c, filled).isAfterText
  {
    var open := LineBreak(c, level) + "<" + name + RenderAttributes(c, attributes, level + 1) + ">";
    var inner := RenderNodes(c, children, level + 1);
    var close := (if AfterText(children, false) then "" else LineBreak(c, level)) + "</" + name + ">";
    EndTagRenders(c, filled, name, close);
    RenderElement(c, name, attributes, children, level);
    Associate4(written, open, inner, close);
  }

  /** The start tag and its attributes, once closed, follow what was written before. */
  lemma StartTagRenders(c: Config, s: WriterState, name: string, attributes: seq<Attribute>)
    requires Consistent(s)
    ensures var tagged := WriteAttributes(c, Opened(c, s, name), attributes);
      && Finish(tagged).out == Finish(s).out + (LineBreak(c, s.level) + "<" + name + RenderAttributes(c, attributes, s.level + 1) + ">")
      && !tagged.isAfterText && tagged.inStartElement && !tagged.inEmptyStartElement
      && tagged.level == s.level + 1 && tagged.elementNameStack == s.elementNameStack + [name]
  {
    StartTagWritten(c, s, name);
    WriteAttributesRender(c, Opened(c, s, name), attributes);
    Associate4(Finish(s).out, LineBreak(c, s.level) + "<" + name, RenderAttributes(c, attributes, s.level + 1), ">");
  }

  /** The closing tag after the children: on its own line unless text came last. */
  lemma EndTagRenders(c: Config, filled: WriterState, name: string, close: string)
    requires filled.level > 0 && filled.elementNameStack != [] && !filled.inEmptyStartElement
    requires filled.elementNameStack[|filled.elementNameStack| - 1] == name
    requires close == (if filled.isAfterText then "" else LineBreak(c, filled.level - 1)) + "</" + name + ">"
    ensures Closed(c, filled).out == Finish(filled).out + close
    ensures !Closed(c, filled).inStartElement && !Closed(c, filled).inEmptyStartElement && !Closed(c, filled).isAfterText
  {
    ClosingTag(c, filled);
  }

  lemma RenderElement(c: Config, name: string, attributes: seq<Attribute>, children: seq<Node>, level: nat)
    ensures Render(c, Element(name, attributes, children), level) ==
      LineBreak(c, level) + "<" + name + RenderAttributes(c, attributes, level + 1) + ">"
      + RenderNodes(c, children, level + 1)
      + ((if AfterText(children, false) then "" else LineBreak(c, level)) + "</" + name + ">")
  {
  }

  /**
   * Writing siblings: once the pending tag is closed, the output is the
   * concatenated renderings; whether text came last follows the siblings.
   */
  lemma {:induction false} WriteNodesRender(c: Config, s: WriterState, nodes: seq<Node>)
    requires Consistent(s)
    ensures var r := WriteNodes(c, s, nodes);
      && Consistent(r)
      && Finish(r).out == Finish(s).out + RenderNodes(c, nodes, s.level)
      && r.isAfterText == AfterText(nodes, s.isAfterText)
      && (nodes != [] ==> !r.inStartElement)
      && (nodes == [] ==> r == s)
    decreases nodes, 2
  {
    if nodes != [] {
      var first := WriteNode(c, s, nodes[0]);
      WriteNodeRenders(c, s, nodes[0]);
      WriteNodesRender(c, first, nodes[1..]);
      assert Finish(first) == first;
      Associate(Finish(s).out, Render(c, nodes[0], s.level), RenderNodes(c, nodes[1..], s.level));
    }
  }

  /**
   * A sequence of write calls made one after another; None when a call
   * fails (its exception ends the sequence) or would take the sink's
   * indentation level below zero.
   */
  function Run(c: Config, s: WriterState, calls: seq<Op>): Option<WriterState>
    decreases calls
  {
    if calls == [] then Some(s)
    else if !Enabled(s, calls[0]) || Error(s, calls[0]).Some? then None
    else Run(c, Apply(c, s, calls[0]), calls[1..])
  }

  /** The calls a tree walk makes for one node. */
  function Calls(node: Node): seq<Op>
    decreases node
  {
    match node
    case Element(name, attributes, children) =>
      [WriteStartElement(name)] + AttributeCalls(attributes) + NodesCalls(children) + [WriteEndElement]
    case EmptyElement(name, attributes) =>
      [WriteEmptyElement(name)] + AttributeCalls(attributes) + [WriteEndElement]
    case Text(text) => [WriteCharacters(text)]
    case Comment(data) => [WriteComment(data)]
  }

  function NodesCalls(nodes: seq<Node>): seq<Op>
    decreases nodes
  {
    if nodes == [] then [] else Calls(nodes[0]) + NodesCalls(nodes[1..])
  }

  function AttributeCalls(attributes: seq<Attribute>): seq<Op>
  {
    if attributes == [] then [] else [WriteAttribute(attributes[0].name, attributes[0].value)] + AttributeCalls(attributes[1..])
  }

  /** A call that fails ends the sequence: nothing after it runs, and the sequence has no final state. */
  lemma RunStopsAtFailure(c: Config, s: WriterState, op: Op, rest: seq<Op>)
    requires Error(s, op).Some?
    ensures Run(c, s, [op] + rest) == None
  {
    assert ([op] + rest)[0] == op;
  }

  /** Running two call sequences one after the other is running their concatenation. */
  lemma {:induction false} RunConcat(c: Config, s: WriterState, first: seq<Op>, rest: seq<Op>)
    ensures Run(c, s, first + rest) == if Run(c, s, first).None? then None else Run(c, Run(c, s, first).value, rest)
    decreases first
  {
    if first != [] {
      assert (first + rest)[0] == first[0];
      assert (first + rest)[1..] == first[1..] + rest;
      if Enabled(s, first[0]) && Error(s, first[0]).None? {
        RunConcat(c, Apply(c, s, first[0]), first[1..], rest);
      }
    } else {
      assert first + rest == rest;
    }
  }

  lemma {:induction false} AttributeCallsRun(c: Config, s: WriterState, attributes: seq<Attribute>)
    ensures Run(c, s, AttributeCalls(attributes)) == Some(WriteAttributes(c, s, attributes))
    decreases attributes
  {
    if attributes != [] {
      var a := attributes[0];
      AttributeCall(c, s, a.name, a.value);
      RunConcat(c, s, [WriteAttribute(a.name, a.value)], AttributeCalls(attributes[1..]));
      AttributeCallsRun(c, AttributeWritten(c, s, a.name, a.value), attributes[1..]);
    }
  }

  /** The calls a tree walk makes for a node leave exactly the state WriteNode describes; none of them fails or is refused. */
  lemma {:induction false} CallsRun(c: Config, s: WriterState, node: Node)
    ensures Run(c, s, Calls(node)) == Some(WriteNode(c, s, node))
    decreases node, 1
  {
    match node
    case Element(name, attributes, children) =>
      var started := Opened(c, s, name);
      var tagged := WriteAttributes(c, started, attributes);
      var filled := WriteNodes(c, tagged, children);
      StartElementCall(c, s, name);
      assert Run(c, s, [WriteStartElement(name)]) == Some(started);
      AttributeCallsRun(c, started, attributes);
      NodesCallsRun(c, tagged, children);
      EndElementCall(c, filled);
      assert filled.elementNameStack == s.elementNameStack + [name];
      assert Run(c, filled, [WriteEndElement]) == Some(Closed(c, filled));
      var a, b, d := [WriteStartElement(name)], AttributeCalls(attributes), NodesCalls(children);
      RunConcat(c, s, a, b);
      RunConcat(c, s, a + b, d);
      RunConcat(c, s, a + b + d, [WriteEndElement]);
    case EmptyElement(name, attributes) =>
      var started := Opened(c, s, name).(inEmptyStartElement := true);
      var tagged := WriteAttributes(c, started, attributes);
      EmptyElementCall(c, s, name);
      assert Run(c, s, [WriteEmptyElement(name)]) == Some(started);
      AttributeCallsRun(c, started, attributes);
      EndElementCall(c, tagged);
      assert tagged.elementNameStack == s.elementNameStack + [name];
      assert Run(c, tagged, [WriteEndElement]) == Some(Closed(c, tagged));
      RunConcat(c, s, [WriteEmptyElement(name)], AttributeCalls(attributes));
      RunConcat(c, s, [WriteEmptyElement(name)] + AttributeCalls(attributes), [WriteEndElement]);
    case Text(text) =>
      CharactersCall(c, s, text);
      assert Run(c, s, Calls(node)) == Run(c, Apply(c, s, WriteCharacters(text)), []);
    case Comment(data) =>
      CommentCall(c, s, data);
      assert Run(c, s, Calls(node)) == Run(c, Apply(c, s, WriteComment(data)), []);
  }

  lemma {:induction false} NodesCallsRun(c: Config, s: WriterState, nodes: seq<Node>)
    ensures Run(c, s, NodesCalls(nodes)) == Some(WriteNodes(c, s, nodes))
    decreases nodes, 2
  {
    if nodes != [] {
      CallsRun(c, s, nodes[0]);
      RunConcat(c, s, Calls(nodes[0]), NodesCalls(nodes[1..]));
      NodesCallsRun(c, WriteNode(c, s, nodes[0]), nodes[1..]);
    }
  }

  /** The state of a newly constructed writer: nothing written, nothing open, level zero. */
  function Fresh(): WriterState
  {
    WriterState(false, false, false, [], 0, [])
  }

  /**
   * A whole document: the calls for one root element followed by
   * writeEndDocument, on a new writer. None of the calls fails, the
   * output is the reference rendering at level zero, and the writer ends
   * with no element open and no pending tag.
   */
  lemma DocumentRendered(c: Config, root: Node)
    ensures var r := Run(c, Fresh(), Calls(root) + [WriteEndDocument]);
      && r.Some?
      && r.value.out == Render(c, root, 0)
      && r.value.elementNameStack == [] && r.value.level == 0
      && !r.value.inStartElement && !r.value.inEmptyStartElement
      && Error(WriteNode(c, Fresh(), root), WriteEndDocument).None?
  {
    var w := WriteNode(c, Fresh(), root);
    CallsRun(c, Fresh(), root);
    WriteNodeRenders(c, Fresh(), root);
    assert Finish(Fresh()) == Fresh();
    RunConcat(c, Fresh(), Calls(root), [WriteEndDocument]);
    EndDocumentCall(c, w);
    assert Run(c, w, [WriteEndDocument]) == Some(Apply(c, w, WriteEndDocument));
  }
}
