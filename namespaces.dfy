/**
 * NamespaceContextImpl, the writer's prefix/URI binding table: a map from
 * prefix to URI (the last binding of a prefix wins), a map from URI to the
 * list of prefixes bound to it (in binding order), and an optional supplied
 * NamespaceContext that every lookup consults first.
 */
module Namespaces {
  import opened Wrappers

  /**
   * A NamespaceContext supplied with setNamespaceContext. Its answers are
   * taken as given; None stands for a null answer, and a sequence for the
   * prefixes its iterator would yield.
   */
  datatype Resolver = Resolver(
    namespaceUri: string -> Option<string>,
    prefix: string -> Option<string>,
    prefixes: string -> Option<seq<string>>)

  /** The only failure of a lookup: dereferencing the missing list of an unbound URI. */
  datatype LookupError = NullPointerException

  /** The two maps of NamespaceContextImpl, as a value. */
  datatype Table = Table(prefixToUri: map<string, string>, uriToPrefixes: map<string, seq<string>>)

  const EmptyTable := Table(map[], map[])

  /**
   * What setPrefix keeps true of a table built from empty: every URI that
   * has a list has a non-empty one, every prefix is listed under the URI it
   * is bound to, and every listed prefix is bound.
   */
  ghost predicate WellFormed(t: Table)
  {
    && (forall u :: u in t.uriToPrefixes ==> |t.uriToPrefixes[u]| > 0)
    && (forall p :: p in t.prefixToUri ==>
          t.prefixToUri[p] in t.uriToPrefixes && p in t.uriToPrefixes[t.prefixToUri[p]])
    && (forall u, p :: u in t.uriToPrefixes && p in t.uriToPrefixes[u] ==> p in t.prefixToUri)
  }

  /** setPrefix(prefix, uri): rebinds the prefix and appends it to the URI's list, creating the list if needed. */
  function Bind(t: Table, prefix: string, uri: string): Table
  {
    var list := if uri in t.uriToPrefixes then t.uriToPrefixes[uri] else [];
    Table(t.prefixToUri[prefix := uri], t.uriToPrefixes[uri := list + [prefix]])
  }

  /** getNamespaceURI(prefix): the resolver's non-null answer, else the table's binding, else null. */
  function LookupNamespaceUri(t: Table, supplied: Option<Resolver>, prefix: string): Option<string>
  {
    if supplied.Some? && supplied.value.namespaceUri(prefix).Some? then supplied.value.namespaceUri(prefix)
    else if prefix in t.prefixToUri then Some(t.prefixToUri[prefix])
    else None
  }

  /**
   * getPrefix(uri): the resolver's non-null answer, else the first prefix in
   * the URI's list, else null for an empty list; an unbound URI has no list,
   * and calling size() on it throws.
   */
  function LookupPrefix(t: Table, supplied: Option<Resolver>, uri: string): Result<Option<string>, LookupError>
  {
    if supplied.Some? && supplied.value.prefix(uri).Some? then Success(supplied.value.prefix(uri))
    else if uri !in t.uriToPrefixes then Failure(NullPointerException)
    else if |t.uriToPrefixes[uri]| < 1 then Success(None)
    else Success(Some(t.uriToPrefixes[uri][0]))
  }

  /** getPrefixes(uri): as LookupPrefix, with the whole list in place of its first element. */
  function LookupPrefixes(t: Table, supplied: Option<Resolver>, uri: string): Result<Option<seq<string>>, LookupError>
  {
    if supplied.Some? && supplied.value.prefixes(uri).Some? then Success(supplied.value.prefixes(uri))
    else if uri !in t.uriToPrefixes then Failure(NullPointerException)
    else if |t.uriToPrefixes[uri]| < 1 then Success(None)
    else Success(Some(t.uriToPrefixes[uri]))
  }

  /** The table setPrefix builds from a fresh writer, binding each (prefix, uri) pair in turn. */
  function BindAll(bindings: seq<(string, string)>): Table
  {
    if bindings == [] then EmptyTable
    else
      var last := bindings[|bindings| - 1];
      Bind(BindAll(bindings[..|bindings| - 1]), last.0, last.1)
  }

  /** The prefixes bound to uri, in the order of the bindings. */
  function PrefixesBoundTo(bindings: seq<(string, string)>, uri: string): seq<string>
  {
    if bindings == [] then []
    else
      var last := bindings[|bindings| - 1];
      PrefixesBoundTo(bindings[..|bindings| - 1], uri) + (if last.1 == uri then [last.0] else [])
  }

  /** The URI of the last binding of prefix, if any. */
  function LastUriOf(bindings: seq<(string, string)>, prefix: string): Option<string>
  {
    if bindings == [] then None
    else
      var last := bindings[|bindings| - 1];
      if last.0 == prefix then Some(last.1) else LastUriOf(bindings[..|bindings| - 1], prefix)
  }

  /** Binding keeps the table well formed. */
  lemma BindKeepsWellFormed(t: Table, prefix: string, uri: string)
    requires WellFormed(t)
    ensures WellFormed(Bind(t, prefix, uri))
  {
    var r := Bind(t, prefix, uri);
    forall u, p | u in r.uriToPrefixes && p in r.uriToPrefixes[u]
      ensures p in r.prefixToUri
    {
      if u != uri {
        assert r.uriToPrefixes[u] == t.uriToPrefixes[u];
      }
    }
  }

  /** Last write wins: after setPrefix(p, u), getNamespaceURI(p) is u unless the supplied context answers. */
  lemma BindThenLookupUri(t: Table, supplied: Option<Resolver>, prefix: string, uri: string, other: string)
    ensures LookupNamespaceUri(Bind(t, prefix, uri), supplied, prefix) ==
      (if supplied.Some? && supplied.value.namespaceUri(prefix).Some? then supplied.value.namespaceUri(prefix)
       else Some(uri))
    ensures other != prefix ==>
      LookupNamespaceUri(Bind(t, prefix, uri), supplied, other) == LookupNamespaceUri(t, supplied, other)
  {
  }

  /** In a well-formed table the empty-list branch of getPrefix and getPrefixes is unreachable. */
  lemma WellFormedHasNoEmptyList(t: Table, supplied: Option<Resolver>, uri: string)
    requires WellFormed(t)
    ensures LookupPrefix(t, supplied, uri) != Success(None)
    ensures LookupPrefixes(t, supplied, uri) != Success(None)
  {
  }

  /** getPrefix of a URI that was never bound, with no answer from a supplied context, throws. */
  lemma UnboundUriThrows(t: Table, supplied: Option<Resolver>, uri: string)
    requires uri !in t.uriToPrefixes
    requires supplied.None? || supplied.value.prefix(uri).None?
    ensures LookupPrefix(t, supplied, uri) == Failure(NullPointerException)
  {
  }

  /** A table built by setPrefix calls lists, under each URI, exactly the prefixes bound to it, in order. */
  lemma {:induction false} BindAllLists(bindings: seq<(string, string)>, uri: string)
    ensures WellFormed(BindAll(bindings))
    ensures uri in BindAll(bindings).uriToPrefixes <==> PrefixesBoundTo(bindings, uri) != []
    ensures uri in BindAll(bindings).uriToPrefixes ==>
      BindAll(bindings).uriToPrefixes[uri] == PrefixesBoundTo(bindings, uri)
  {
    if bindings != [] {
      var init := bindings[..|bindings| - 1];
      var last := bindings[|bindings| - 1];
      BindAllLists(init, uri);
      BindAllLists(init, last.1);
      BindKeepsWellFormed(BindAll(init), last.0, last.1);
    }
  }

  /** With no supplied context, getPrefix(u) is the earliest prefix ever bound to u, and throws if there is none. */
  lemma BindAllEarliestPrefix(bindings: seq<(string, string)>, uri: string)
    ensures LookupPrefix(BindAll(bindings), None, uri) ==
      if PrefixesBoundTo(bindings, uri) == [] then Failure(NullPointerException)
      else Success(Some(PrefixesBoundTo(bindings, uri)[0]))
  {
    BindAllLists(bindings, uri);
  }

  /** With no supplied context, getPrefixes(u) yields every prefix bound to u, in binding order. */
  lemma BindAllAllPrefixes(bindings: seq<(string, string)>, uri: string)
    ensures LookupPrefixes(BindAll(bindings), None, uri) ==
      if PrefixesBoundTo(bindings, uri) == [] then Failure(NullPointerException)
      else Success(Some(PrefixesBoundTo(bindings, uri)))
  {
    BindAllLists(bindings, uri);
  }

  /** With no supplied context, getNamespaceURI(p) is the URI of the last binding of p. */
  lemma {:induction false} BindAllLastUri(bindings: seq<(string, string)>, prefix: string)
    ensures LookupNamespaceUri(BindAll(bindings), None, prefix) == LastUriOf(bindings, prefix)
  {
    if bindings != [] {
      BindAllLastUri(bindings[..|bindings| - 1], prefix);
    }
  }

  /** The binding table object the writer owns. */
  class NamespaceContextImpl {
    var prefixToUriMap: map<string, string>
    var uriToPrefixMap: map<string, seq<string>>
    var suppliedContext: Option<Resolver>

    function Bindings(): Table
      reads this
    {
      Table(prefixToUriMap, uriToPrefixMap)
    }

    ghost predicate Valid()
      reads this
    {
      WellFormed(Bindings())
    }

    constructor ()
      ensures Valid()
      ensures Bindings() == EmptyTable && suppliedContext == None
    {
      prefixToUriMap := map[];
      uriToPrefixMap := map[];
      suppliedContext := None;
    }

    method SetPrefix(prefix: string, uri: string)
      requires Valid()
      modifies this
      ensures Valid()
      ensures Bindings() == Bind(old(Bindings()), prefix, uri)
      ensures suppliedContext == old(suppliedContext)
    {
      ghost var before := Bindings();
      ghost var list := if uri in uriToPrefixMap then uriToPrefixMap[uri] else [];
      BindKeepsWellFormed(before, prefix, uri);
      prefixToUriMap := prefixToUriMap[prefix := uri];
      if uri !in uriToPrefixMap {
        uriToPrefixMap := uriToPrefixMap[uri := []];
      }
      assert uriToPrefixMap[uri] == list;
      uriToPrefixMap := uriToPrefixMap[uri := uriToPrefixMap[uri] + [prefix]];
      assert uriToPrefixMap == before.uriToPrefixes[uri := list + [prefix]];
      assert Bindings() == Bind(before, prefix, uri);
    }

    method SetNamespaceContext(context: Option<Resolver>)
      modifies this
      ensures suppliedContext == context
      ensures Bindings() == old(Bindings())
    {
      suppliedContext := context;
    }

    method GetNamespaceURI(prefix: string) returns (uri: Option<string>)
      ensures uri == LookupNamespaceUri(Bindings(), suppliedContext, prefix)
    {
      if suppliedContext.Some? {
        uri := suppliedContext.value.namespaceUri(prefix);
        if uri.Some? { return; }
      }
      uri := if prefix in prefixToUriMap then Some(prefixToUriMap[prefix]) else None;
    }

    method GetPrefix(uri: string) returns (r: Result<Option<string>, LookupError>)
      ensures r == LookupPrefix(Bindings(), suppliedContext, uri)
    {
      if suppliedContext.Some? {
        var prefix := suppliedContext.value.prefix(uri);
        if prefix.Some? { return Success(prefix); }
      }
      if uri !in uriToPrefixMap {
        return Failure(NullPointerException);
      }
      var prefixes := uriToPrefixMap[uri];
      if |prefixes| < 1 {
        r := Success(None);
      } else {
        r := Success(Some(prefixes[0]));
      }
    }

    method GetPrefixes(uri: string) returns (r: Result<Option<seq<string>>, LookupError>)
      ensures r == LookupPrefixes(Bindings(), suppliedContext, uri)
    {
      if suppliedContext.Some? {
        var prefixes := suppliedContext.value.prefixes(uri);
        if prefixes.Some? { return Success(prefixes); }
      }
      if uri !in uriToPrefixMap {
        return Failure(NullPointerException);
      }
      var prefixes := uriToPrefixMap[uri];
      if |prefixes| < 1 {
        r := Success(None);
      } else {
        r := Success(Some(prefixes));
      }
    }
  }
}
