/**
 * The schema side of the Dropdown path: the document types offered in the
 * dropdown, the title-to-name lookup behind a selection, and the query that
 * selects every document of the chosen type.
 */
module SchemaTypes {
  import opened Wrappers
  import opened JsArray

  /** A type definition as the schema declares it: `name`, optional `title`, and its kind (`type`). */
  datatype TypeDef = TypeDef(name: string, title: Option<string>, kind: string)

  const DocumentKind: string := "document"

  predicate IsDocumentType(t: TypeDef) {
    t.kind == DocumentKind
  }

  /** The `map` callback: the definition itself for a document type, `null` for any other. */
  function DocumentOrNull(t: TypeDef): Option<TypeDef> {
    if IsDocumentType(t) then Some(t) else None
  }

  /** The `filter` callback, `(element) => element !== null`. */
  function NotNull(e: Option<TypeDef>): bool {
    e.Some?
  }

  function Wrap(t: TypeDef): Option<TypeDef> {
    Some(t)
  }

  /**
   * `documentTypes`: the document-kind definitions of the schema, in
   * declaration order; absent when the schema exposes no original definitions.
   */
  function DocumentTypes(original: Option<seq<TypeDef>>): (r: Option<seq<TypeDef>>)
    ensures r.Some? <==> original.Some?
    ensures r.Some? ==> forall i :: 0 <= i < |r.value| ==> r.value[i].kind == DocumentKind
  {
    match original
    case None => None
    case Some(types) => Some(Filter(types, IsDocumentType))
  }

  /** The source's `map` to nullable then `filter` of non-null values is the filter by kind. */
  lemma {:induction false} MapThenDropNulls(types: seq<TypeDef>)
    ensures Filter(Map(types, DocumentOrNull), NotNull) == Map(Filter(types, IsDocumentType), Wrap)
  {
    if types != [] {
      MapThenDropNulls(types[1..]);
      assert Map(types, DocumentOrNull)[1..] == Map(types[1..], DocumentOrNull);
    }
  }

  /** The dropdown holds exactly the document types, each as often as declared, in declaration order. */
  lemma DocumentTypesExact(types: seq<TypeDef>, t: TypeDef)
    ensures t in DocumentTypes(Some(types)).value <==> t in types && t.kind == DocumentKind
    ensures multiset(DocumentTypes(Some(types)).value)[t] ==
              if t.kind == DocumentKind then multiset(types)[t] else 0
    ensures IsSubsequence(DocumentTypes(Some(types)).value, types)
  {
    FilterMembership(types, IsDocumentType, t);
    FilterMultiplicity(types, IsDocumentType, t);
    FilterIsSubsequence(types, IsDocumentType);
  }

  /** The `find` callback, `(element) => element?.title === value`. */
  function HasTitle(title: string): TypeDef -> bool {
    (t: TypeDef) => t.title == Some(title)
  }

  /** No document type carries `title`. */
  predicate NoneTitled(ts: seq<TypeDef>, title: string) {
    forall i :: 0 <= i < |ts| ==> ts[i].title != Some(title)
  }

  /** `ts[i]` is the first document type carrying `title`. */
  predicate FirstTitled(ts: seq<TypeDef>, title: string, i: int) {
    0 <= i < |ts| && ts[i].title == Some(title) && forall j :: 0 <= j < i ==> ts[j].title != Some(title)
  }

  /**
   * `handleSelect`'s new `schemaType`: the name of the first document type
   * whose title is the chosen one, or `''` when none has that title.
   */
  function LookupName(documentTypes: Option<seq<TypeDef>>, title: string): (name: string)
    ensures documentTypes.None? ==> name == ""
    ensures documentTypes.Some? && NoneTitled(documentTypes.value, title) ==> name == ""
    ensures documentTypes.Some? ==>
              forall i :: FirstTitled(documentTypes.value, title, i) ==> name == documentTypes.value[i].name
  {
    match documentTypes
    case None => ""
    case Some(ts) => (match Find(ts, HasTitle(title)) case None => None case Some(t) => Some(t.name)).GetOr("")
  }

  /** `documentTypes?.[0]?.name ?? ''`: the initial `schemaType`. */
  function InitialSchemaType(documentTypes: Option<seq<TypeDef>>): (name: string)
    ensures Selectable(documentTypes, name)
    ensures documentTypes.Some? && |documentTypes.value| > 0 ==> name == documentTypes.value[0].name
    ensures !(documentTypes.Some? && |documentTypes.value| > 0) ==> name == ""
  {
    if documentTypes.Some? && |documentTypes.value| > 0 then documentTypes.value[0].name else ""
  }

  /** A `schemaType` the component can hold: empty, or the name of one of the document types. */
  ghost predicate Selectable(documentTypes: Option<seq<TypeDef>>, name: string) {
    name == "" || (documentTypes.Some? && exists i :: 0 <= i < |documentTypes.value| && documentTypes.value[i].name == name)
  }

  /** A selection by title gives a selectable name. */
  lemma LookupSelectable(documentTypes: Option<seq<TypeDef>>, title: string)
    ensures Selectable(documentTypes, LookupName(documentTypes, title))
  {
    if documentTypes.Some? {
      FindFirstIndex(documentTypes.value, HasTitle(title));
    }
  }

  /** Looking up the first document type's `title`, when it has one, gives the initial `schemaType`. */
  lemma FirstOptionIsInitial(documentTypes: Option<seq<TypeDef>>)
    requires documentTypes.Some? && |documentTypes.value| > 0 && documentTypes.value[0].title.Some?
    ensures LookupName(documentTypes, documentTypes.value[0].title.value) == InitialSchemaType(documentTypes)
  {
  }

  /**
   * A first document type without a title is not found again: its option is
   * rendered with the value `''`, and no `title` equals `''`, so the lookup
   * gives `''` although the initial `schemaType` is that type's name.
   */
  lemma UntitledFirstTypeNotFound()
    ensures InitialSchemaType(Some([TypeDef("a", None, "document")])) == "a"
    ensures LookupName(Some([TypeDef("a", None, "document")]), "") == ""
  {
  }

  /** Two document types sharing a title: the one declared first wins. */
  lemma AmbiguousTitleFirstDeclared()
    ensures LookupName(Some([TypeDef("article", Some("Article"), "document"),
                             TypeDef("article_v2", Some("Article"), "document")]), "Article") == "article"
  {
  }

  const QueryPrefix: string := "*[_type == \""
  const QuerySuffix: string := "\"]"

  /** `handleSelectSubmit`'s query, `*[_type == "<schemaType>"]`, with `schemaType` inserted unescaped. */
  function SelectQuery(schemaType: string): (q: string)
    ensures |q| == |QueryPrefix| + |schemaType| + |QuerySuffix|
    ensures q[..|QueryPrefix|] == QueryPrefix && q[|QueryPrefix|..|q| - |QuerySuffix|] == schemaType
    ensures q[|q| - |QuerySuffix|..] == QuerySuffix
  {
    QueryPrefix + schemaType + QuerySuffix
  }

  /** The type name a query of the Dropdown form selects, if the query has that form. */
  function QueriedType(q: string): Option<string> {
    if |QueryPrefix| + |QuerySuffix| <= |q| && q[..|QueryPrefix|] == QueryPrefix && q[|q| - |QuerySuffix|..] == QuerySuffix
    then Some(q[|QueryPrefix|..|q| - |QuerySuffix|])
    else None
  }

  /** The Dropdown query names its type: reading it back gives the type it was built from. */
  lemma QueriedTypeOfSelectQuery(schemaType: string)
    ensures QueriedType(SelectQuery(schemaType)) == Some(schemaType)
  {
  }

  /** Conversely, every query of the Dropdown form is the query built from the type it names. */
  lemma SelectQueryOfQueriedType(q: string)
    requires QueriedType(q).Some?
    ensures SelectQuery(QueriedType(q).value) == q
  {
    var t := QueriedType(q).value;
    assert q == q[..|QueryPrefix|] + t + q[|q| - |QuerySuffix|..];
  }

  /** Different types give different queries. */
  lemma SelectQueryInjective(a: string, b: string)
    requires SelectQuery(a) == SelectQuery(b)
    ensures a == b
  {
    QueriedTypeOfSelectQuery(a);
    QueriedTypeOfSelectQuery(b);
  }
}
