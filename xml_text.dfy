/**
 * Text transformations the writer applies before handing text to its sink:
 * the XML 1.0 escape of StringEscapeUtils.escapeXml10 (its five entities),
 * and the attribute-value whitespace normalisation
 * `escapedText.replaceAll("\\s+", " ").trim()`.
 */
module XmlText {

  /** A member of Java's regular-expression class \s: [ \t\n\x0B\f\r]. */
  predicate IsJavaSpace(ch: char)
  {
    ch == ' ' || ch == '\t' || ch == '\n' || ch == '\U{000B}' || ch == '\U{000C}' || ch == '\r'
  }

  /** A character String.trim() strips from either end: any code point up to U+0020. */
  predicate IsTrimmable(ch: char)
  {
    ch <= ' '
  }

  /** The characters XML 1.0 reserves for markup and attribute delimiters. */
  predicate IsMarkupDelimiter(ch: char)
  {
    ch == '<' || ch == '>' || ch == '&' || ch == '"' || ch == '\''
  }

  /** s holds neither '<' nor '"', so it can close neither a tag nor a quoted attribute value. */
  ghost predicate QuoteSafe(s: string)
  {
    forall i :: 0 <= i < |s| ==> s[i] != '<' && s[i] != '"'
  }

  /** s holds none of the four characters escapeXml10 always replaces: '<', '>', '"' and '\''. */
  ghost predicate Escaped(s: string)
  {
    forall i :: 0 <= i < |s| ==> s[i] != '<' && s[i] != '>' && s[i] != '"' && s[i] != '\''
  }

  /** No two consecutive characters of s are both \s whitespace. */
  ghost predicate NoDoubleSpace(s: string)
  {
    forall i :: 0 <= i < |s| - 1 ==> !(IsJavaSpace(s[i]) && IsJavaSpace(s[i + 1]))
  }

  function EscapeChar(ch: char): string
  {
    match ch
    case '&' => "&amp;"
    case '<' => "&lt;"
    case '>' => "&gt;"
    case '"' => "&quot;"
    case '\'' => "&apos;"
    case _ => [ch]
  }

  /**
   * StringEscapeUtils.escapeXml10, restricted to its entity escapes: each
   * of the five markup delimiters becomes its entity reference.
   */
  function EscapeXml10(s: string): string
  {
    if s == [] then [] else EscapeChar(s[0]) + EscapeXml10(s[1..])
  }

  /** The escaped text has no '<', '>', '"' or '\'' left; every '&' in it begins an entity reference (see UnescapeEscape). */
  lemma {:induction false} EscapeLeavesNoDelimiters(s: string)
    ensures Escaped(EscapeXml10(s))
  {
    if s != [] {
      EscapeLeavesNoDelimiters(s[1..]);
      var e := EscapeChar(s[0]);
      var t := EscapeXml10(s[1..]);
      var r := EscapeXml10(s);
      assert r == e + t;
      assert Escaped(e) by {
        match s[0]
        case '&' =>
        case '<' =>
        case '>' =>
        case '"' =>
        case '\'' =>
        case _ =>
      }
      forall i | 0 <= i < |r|
        ensures r[i] != '<' && r[i] != '>' && r[i] != '"' && r[i] != '\''
      {
        if i < |e| {
          assert r[i] == e[i];
        } else {
          assert r[i] == t[i - |e|];
        }
      }
    }
  }

  /** The inverse of EscapeXml10: replaces each of the five entity references by its character. */
  function UnescapeXml(s: string): string
  {
    if s == [] then []
    else if s[0] != '&' then [s[0]] + UnescapeXml(s[1..])
    else if |s| >= 5 && s[..5] == "&amp;" then "&" + UnescapeXml(s[5..])
    else if |s| >= 4 && s[..4] == "&lt;" then "<" + UnescapeXml(s[4..])
    else if |s| >= 4 && s[..4] == "&gt;" then ">" + UnescapeXml(s[4..])
    else if |s| >= 6 && s[..6] == "&quot;" then "\"" + UnescapeXml(s[6..])
    else if |s| >= 6 && s[..6] == "&apos;" then "'" + UnescapeXml(s[6..])
    else "&" + UnescapeXml(s[1..])
  }

  /** Unescaping an escaped character followed by more text gives back the character first. */
  lemma UnescapeEscapedChar(ch: char, t: string)
    ensures UnescapeXml(EscapeChar(ch) + t) == [ch] + UnescapeXml(t)
  {
    var e := EscapeChar(ch);
    var u := e + t;
    assert u[..|e|] == e && u[|e|..] == t;
    match ch
    case '&' =>
    case '<' => assert u[1] == 'l';
    case '>' => assert u[1] == 'g';
    case '"' => assert u[1] == 'q';
    case '\'' => assert u[1] == 'a' && u[2] == 'p';
    case _ =>
  }

  /** Escaping loses nothing: unescaping the escaped text gives the text back. */
  lemma {:induction false} UnescapeEscape(s: string)
    ensures UnescapeXml(EscapeXml10(s)) == s
  {
    if s != [] {
      assert EscapeXml10(s) == EscapeChar(s[0]) + EscapeXml10(s[1..]);
      UnescapeEscapedChar(s[0], EscapeXml10(s[1..]));
      UnescapeEscape(s[1..]);
      assert s == [s[0]] + s[1..];
    }
  }

  /** Drops the \s characters at the front of s. */
  function SkipSpaces(s: string): (r: string)
    ensures |r| <= |s| && r == s[|s| - |r|..]
    ensures forall i :: 0 <= i < |s| - |r| ==> IsJavaSpace(s[i])
    ensures r == [] || !IsJavaSpace(r[0])
  {
    if s != [] && IsJavaSpace(s[0]) then SkipSpaces(s[1..]) else s
  }

  /**
   * replaceAll("\\s+", " "): every maximal run of \s characters becomes a
   * single space. The result has no two adjacent whitespace characters,
   * starts with whitespace exactly when s does, and keeps every other
   * character of s in order (CollapseKeepsVisible).
   */
  function CollapseWhitespace(s: string): string
    decreases |s|
  {
    if s == [] then []
    else if IsJavaSpace(s[0]) then
      var rest := CollapseWhitespace(SkipSpaces(s[1..]));
      [' '] + rest
    else
      [s[0]] + CollapseWhitespace(s[1..])
  }

  lemma {:induction false} CollapseShape(s: string)
    ensures var r := CollapseWhitespace(s);
      && NoDoubleSpace(r)
      && (r == [] <==> s == [])
      && (r != [] ==> (IsJavaSpace(r[0]) <==> IsJavaSpace(s[0])))
      && (forall i :: 0 <= i < |r| && IsJavaSpace(r[i]) ==> r[i] == ' ')
    decreases |s|
  {
    if s != [] {
      var t := if IsJavaSpace(s[0]) then SkipSpaces(s[1..]) else s[1..];
      CollapseShape(t);
      var rest := CollapseWhitespace(t);
      var r := CollapseWhitespace(s);
      var head := if IsJavaSpace(s[0]) then ' ' else s[0];
      assert r == [head] + rest;
      forall i | 1 <= i < |r|
        ensures r[i] == rest[i - 1]
      {
      }
      if IsJavaSpace(s[0]) {
        assert rest == [] || !IsJavaSpace(rest[0]);
      }
    }
  }

  /** Drops the trimmable characters at the front of s. */
  function TrimStart(s: string): (r: string)
    ensures |r| <= |s|
  {
    if s != [] && IsTrimmable(s[0]) then TrimStart(s[1..]) else s
  }

  /** TrimStart keeps a suffix of s: it drops only trimmable characters, and stops at one it must keep. */
  lemma {:induction false} TrimStartShape(s: string)
    ensures var r := TrimStart(s);
      && |r| <= |s| && r == s[|s| - |r|..]
      && (forall i :: 0 <= i < |s| - |r| ==> IsTrimmable(s[i]))
      && (r == [] || !IsTrimmable(r[0]))
  {
    if s != [] && IsTrimmable(s[0]) {
      TrimStartShape(s[1..]);
      assert s[1..][|s| - 1 - |TrimStart(s)|..] == s[|s| - |TrimStart(s)|..];
    }
  }

  /** Drops the trimmable characters at the back of s. */
  function TrimEnd(s: string): (r: string)
    ensures |r| <= |s|
  {
    if s != [] && IsTrimmable(s[|s| - 1]) then TrimEnd(s[..|s| - 1]) else s
  }

  /** TrimEnd keeps a prefix of s: it drops only trimmable characters, and stops at one it must keep. */
  lemma {:induction false} TrimEndShape(s: string)
    ensures var r := TrimEnd(s);
      && |r| <= |s| && r == s[..|r|]
      && (forall i :: |r| <= i < |s| ==> IsTrimmable(s[i]))
      && (r == [] || !IsTrimmable(r[|r| - 1]))
  {
    if s != [] && IsTrimmable(s[|s| - 1]) {
      TrimEndShape(s[..|s| - 1]);
      assert s[..|s| - 1][..|TrimEnd(s)|] == s[..|TrimEnd(s)|];
    }
  }

  /** String.trim(): a slice of s that neither starts nor ends with a trimmable character. */
  function Trim(s: string): (r: string)
  {
    TrimEnd(TrimStart(s))
  }

  /** The characters of s that trim() would never strip, in order. */
  function Visible(s: string): string
  {
    if s == [] then [] else (if IsTrimmable(s[0]) then [] else [s[0]]) + Visible(s[1..])
  }

  lemma {:induction false} VisibleConcat(a: string, b: string)
    ensures Visible(a + b) == Visible(a) + Visible(b)
  {
    if a == [] {
      assert a + b == b;
    } else {
      var head := if IsTrimmable(a[0]) then [] else [a[0]];
      assert (a + b)[0] == a[0] && (a + b)[1..] == a[1..] + b;
      VisibleConcat(a[1..], b);
      calc {
        Visible(a + b);
        head + Visible(a[1..] + b);
        head + (Visible(a[1..]) + Visible(b));
        (head + Visible(a[1..])) + Visible(b);
      }
    }
  }

  lemma {:induction false} VisibleOfBlank(s: string)
    requires forall i :: 0 <= i < |s| ==> IsTrimmable(s[i])
    ensures Visible(s) == []
  {
    if s != [] {
      VisibleOfBlank(s[1..]);
    }
  }

  /** Collapsing whitespace keeps every visible character, in order. */
  lemma {:induction false} CollapseKeepsVisible(s: string)
    ensures Visible(CollapseWhitespace(s)) == Visible(s)
    decreases |s|
  {
    if s == [] {
    } else if IsJavaSpace(s[0]) {
      var t := SkipSpaces(s[1..]);
      CollapseKeepsVisible(t);
      var blank := s[1..][..|s| - 1 - |t|];
      assert s[1..] == blank + t;
      VisibleConcat(blank, t);
      VisibleOfBlank(blank);
      assert Visible(s) == Visible(s[1..]);
      var r := CollapseWhitespace(s);
      assert r == [' '] + CollapseWhitespace(t);
      assert r[1..] == CollapseWhitespace(t);
      assert Visible(r) == Visible(r[1..]);
    } else {
      CollapseKeepsVisible(s[1..]);
      var r := CollapseWhitespace(s);
      assert r[1..] == CollapseWhitespace(s[1..]);
    }
  }

  /** Dropping a blank prefix keeps every visible character. */
  lemma DropBlankPrefix(s: string, n: nat)
    requires n <= |s|
    requires forall i :: 0 <= i < n ==> IsTrimmable(s[i])
    ensures Visible(s[n..]) == Visible(s)
  {
    assert s == s[..n] + s[n..];
    VisibleConcat(s[..n], s[n..]);
    VisibleOfBlank(s[..n]);
  }

  /** Dropping a blank suffix keeps every visible character. */
  lemma DropBlankSuffix(s: string, n: nat)
    requires n <= |s|
    requires forall i :: n <= i < |s| ==> IsTrimmable(s[i])
    ensures Visible(s[..n]) == Visible(s)
  {
    assert s == s[..n] + s[n..];
    VisibleConcat(s[..n], s[n..]);
    VisibleOfBlank(s[n..]);
  }

  /** What trim() keeps: the slice of s after its blank prefix and before its blank suffix, with visible ends. */
  lemma TrimSlice(s: string)
    ensures var i := |s| - |TrimStart(s)|; i + |Trim(s)| <= |s| && Trim(s) == s[i..i + |Trim(s)|]
    ensures Trim(s) == [] || (!IsTrimmable(Trim(s)[0]) && !IsTrimmable(Trim(s)[|Trim(s)| - 1]))
  {
    var a := TrimStart(s);
    var i := |s| - |a|;
    var b := TrimEnd(a);
    TrimStartShape(s);
    TrimEndShape(a);
    assert s[i..i + |b|] == a[..|b|];
  }

  /** Trimming keeps the character-by-character properties and leaves visible ends. */
  lemma TrimKeepsCharacters(c: string)
    ensures NoDoubleSpace(c) ==> NoDoubleSpace(Trim(c))
    ensures QuoteSafe(c) ==> QuoteSafe(Trim(c))
    ensures Trim(c) == [] || (!IsTrimmable(Trim(c)[0]) && !IsTrimmable(Trim(c)[|Trim(c)| - 1]))
  {
    TrimSlice(c);
    var i := |c| - |TrimStart(c)|;
    SliceKeepsCharacters(c, i, i + |Trim(c)|);
  }

  /** Trimming keeps every visible character, in order. */
  lemma TrimKeepsVisible(s: string)
    ensures Visible(Trim(s)) == Visible(s)
  {
    var a := TrimStart(s);
    TrimStartShape(s);
    TrimEndShape(a);
    DropBlankPrefix(s, |s| - |a|);
    DropBlankSuffix(a, |TrimEnd(a)|);
  }

  /** The text writeAttributeCharacters hands to the sink: the escaped value, normalised. */
  function AttributeText(text: string): string
  {
    NormalisedValue(EscapeXml10(text))
  }

  /**
   * The attribute text never holds two consecutive whitespace characters,
   * never starts or ends with one, holds no '<' or '"' (so it can end
   * neither the tag nor the quoted value early), and keeps every visible
   * character of the escaped value, in order.
   */
  lemma AttributeTextNormalised(text: string)
    ensures var r := AttributeText(text);
      && NoDoubleSpace(r)
      && (r == [] || (!IsJavaSpace(r[0]) && !IsJavaSpace(r[|r| - 1])))
      && QuoteSafe(r)
      && Visible(r) == Visible(EscapeXml10(text))
  {
    var e := EscapeXml10(text);
    EscapeLeavesNoDelimiters(text);
    var c := CollapseWhitespace(e);
    CollapseShape(e);
    CollapseKeepsVisible(e);
    CollapseKeepsQuoteSafe(e);
    TrimKeepsVisible(c);
    TrimKeepsCharacters(c);
  }

  /** replaceAll("\\s+", " ") then trim(), on text that is already escaped. */
  function NormalisedValue(escaped: string): string
  {
    Trim(CollapseWhitespace(escaped))
  }

  /** A slice keeps the properties of the whole string that hold character by character. */
  lemma SliceKeepsCharacters(c: string, i: nat, j: nat)
    requires i <= j <= |c|
    ensures NoDoubleSpace(c) ==> NoDoubleSpace(c[i..j])
    ensures QuoteSafe(c) ==> QuoteSafe(c[i..j])
  {
    var r := c[i..j];
    assert forall k :: 0 <= k < |r| ==> r[k] == c[i + k];
  }

  /** Collapsing whitespace introduces no '<' and no '"'. */
  lemma {:induction false} CollapseKeepsQuoteSafe(s: string)
    requires QuoteSafe(s)
    ensures QuoteSafe(CollapseWhitespace(s))
    decreases |s|
  {
    if s != [] {
      if IsJavaSpace(s[0]) {
        var t := SkipSpaces(s[1..]);
        assert forall k :: 0 <= k < |t| ==> t[k] == s[|s| - |t| + k];
        CollapseKeepsQuoteSafe(t);
      } else {
        CollapseKeepsQuoteSafe(s[1..]);
      }
    }
  }
}
