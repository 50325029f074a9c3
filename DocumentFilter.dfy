/**
 * The document filter applied to every query result before it becomes the
 * working set: keep the documents whose `_type` the schema registers, then
 * drop the documents whose `_id` carries the draft prefix.
 */
module DocumentFilter {
  import opened JsArray

  /**
   * A document from the content store: its `_id`, its `_type`, and the rest
   * of its fields, which the filter carries along untouched.
   */
  datatype Doc = Doc(id: string, typeName: string, fields: map<string, string>)

  /** The identifier prefix that marks an unpublished draft. */
  const DraftPrefix: string := "drafts."

  /** JavaScript's `s.startsWith(prefix)`. */
  predicate StartsWith(s: string, prefix: string) {
    |prefix| <= |s| && s[..|prefix|] == prefix
  }

  predicate IsDraft(d: Doc) {
    StartsWith(d.id, DraftPrefix)
  }

  /** The first pass's callback, `(doc) => schemaTypes.includes(doc._type)`. */
  function Registered(schemaTypes: seq<string>): Doc -> bool {
    (d: Doc) => d.typeName in schemaTypes
  }

  /** The second pass's callback, `(doc) => !doc._id.startsWith('drafts.')`. */
  function Published(d: Doc): bool {
    !IsDraft(d)
  }

  /** The single condition a document must meet to be offered for duplication. */
  predicate Eligible(schemaTypes: seq<string>, d: Doc) {
    d.typeName in schemaTypes && Published(d)
  }

  function EligibleIn(schemaTypes: seq<string>): Doc -> bool {
    (d: Doc) => Eligible(schemaTypes, d)
  }

  /** A working set: schema-conformant and free of drafts. */
  ghost predicate IsWorkingSet(docs: seq<Doc>, schemaTypes: seq<string>) {
    forall i :: 0 <= i < |docs| ==> Eligible(schemaTypes, docs[i])
  }

  /**
   * `registeredAndPublishedDocs`: an empty result gives `[]`, any other
   * result goes through the schema pass and then the draft pass.
   */
  function RegisteredAndPublished(res: seq<Doc>, schemaTypes: seq<string>): (r: seq<Doc>)
    ensures IsWorkingSet(r, schemaTypes)
    ensures res == [] ==> r == []
  {
    if |res| > 0 then
      var registered := Filter(res, Registered(schemaTypes));
      var published := Filter(registered, Published);
      assert forall i :: 0 <= i < |published| ==> Eligible(schemaTypes, published[i]) by {
        forall i | 0 <= i < |published| ensures Eligible(schemaTypes, published[i]) {
          FilterMembership(registered, Published, published[i]);
          FilterMembership(res, Registered(schemaTypes), published[i]);
        }
      }
      published
    else
      []
  }

  /** The two passes are one filter by `Eligible`. */
  lemma {:induction false} TwoPassesAreOne(res: seq<Doc>, schemaTypes: seq<string>)
    ensures RegisteredAndPublished(res, schemaTypes) == Filter(res, EligibleIn(schemaTypes))
  {
    FilterFilter(res, Registered(schemaTypes), Published, EligibleIn(schemaTypes));
  }

  /** The passes are independent: running the draft pass first gives the same working set. */
  lemma {:induction false} PassOrderIrrelevant(res: seq<Doc>, schemaTypes: seq<string>)
    ensures Filter(Filter(res, Published), Registered(schemaTypes)) == RegisteredAndPublished(res, schemaTypes)
  {
    FilterFilter(res, Published, Registered(schemaTypes), EligibleIn(schemaTypes));
    TwoPassesAreOne(res, schemaTypes);
  }

  /** A document is kept exactly when the result holds it, its type is registered and it is not a draft. */
  lemma KeptIff(res: seq<Doc>, schemaTypes: seq<string>, d: Doc)
    ensures d in RegisteredAndPublished(res, schemaTypes) <==>
              d in res && d.typeName in schemaTypes && !StartsWith(d.id, DraftPrefix)
  {
    TwoPassesAreOne(res, schemaTypes);
    FilterMembership(res, EligibleIn(schemaTypes), d);
  }

  /** Every copy of a kept document is kept and nothing else is: the filter neither merges nor duplicates. */
  lemma KeptMultiplicity(res: seq<Doc>, schemaTypes: seq<string>, d: Doc)
    ensures multiset(RegisteredAndPublished(res, schemaTypes))[d] ==
              if Eligible(schemaTypes, d) then multiset(res)[d] else 0
  {
    TwoPassesAreOne(res, schemaTypes);
    FilterMultiplicity(res, EligibleIn(schemaTypes), d);
  }

  /** Surviving documents keep their relative order. */
  lemma KeptInOrder(res: seq<Doc>, schemaTypes: seq<string>)
    ensures IsSubsequence(RegisteredAndPublished(res, schemaTypes), res)
  {
    TwoPassesAreOne(res, schemaTypes);
    FilterIsSubsequence(res, EligibleIn(schemaTypes));
  }

  /** Filtering a concatenated result is concatenating the filtered parts. */
  lemma KeptConcat(a: seq<Doc>, b: seq<Doc>, schemaTypes: seq<string>)
    ensures RegisteredAndPublished(a + b, schemaTypes) ==
              RegisteredAndPublished(a, schemaTypes) + RegisteredAndPublished(b, schemaTypes)
  {
    TwoPassesAreOne(a + b, schemaTypes);
    TwoPassesAreOne(a, schemaTypes);
    TwoPassesAreOne(b, schemaTypes);
    FilterConcat(a, b, EligibleIn(schemaTypes));
  }

  /** A sequence is left unchanged by the filter exactly when it already is a working set. */
  lemma FixedPointIffWorkingSet(docs: seq<Doc>, schemaTypes: seq<string>)
    ensures RegisteredAndPublished(docs, schemaTypes) == docs <==> IsWorkingSet(docs, schemaTypes)
  {
    TwoPassesAreOne(docs, schemaTypes);
    if IsWorkingSet(docs, schemaTypes) {
      FilterAllPass(docs, EligibleIn(schemaTypes));
    }
  }

  /** Filtering an already filtered result changes nothing. */
  lemma Idempotent(res: seq<Doc>, schemaTypes: seq<string>)
    ensures RegisteredAndPublished(RegisteredAndPublished(res, schemaTypes), schemaTypes) ==
              RegisteredAndPublished(res, schemaTypes)
  {
    TwoPassesAreOne(res, schemaTypes);
    TwoPassesAreOne(RegisteredAndPublished(res, schemaTypes), schemaTypes);
    FilterIdempotent(res, EligibleIn(schemaTypes));
  }

  /** A published document and its draft: only the published one survives. */
  lemma DraftOfRegisteredTypeDropped()
    ensures RegisteredAndPublished(
              [Doc("a1", "article", map[]), Doc("drafts.a1", "article", map[])], ["article"]) ==
            [Doc("a1", "article", map[])]
  {
  }

  /** A document of a type the schema does not register is dropped. */
  lemma UnregisteredTypeDropped()
    ensures RegisteredAndPublished([Doc("x1", "unregisteredType", map[])], ["article"]) == []
  {
  }
}
