/**
 * The component's session state (`queryParam`, `value`, `schemaType` and
 * `initialData.docs`) and the handlers that change it. The pure reducer
 * `Step` is the specification; the class `DuplicatorQuery` holds the fields
 * and its methods are proved to perform `Step`.
 */
module Session {
  import opened Wrappers
  import opened DocumentFilter
  import opened SchemaTypes

  /** Which input path is shown: the free GROQ query or the type dropdown. */
  datatype QueryParam = Groq | Dropdown

  /** What the component reads from the schema: `getTypeNames()` and `_original?.types`. */
  datatype Schema = Schema(typeNames: seq<string>, original: Option<seq<TypeDef>>)

  /** The outcome of one `originClient.fetch`: the resolved result or a rejection. */
  datatype FetchOutcome = Fetched(res: seq<Doc>) | Rejected

  datatype State = State(queryParam: QueryParam, value: string, schemaType: string, docs: seq<Doc>)

  /** The events the handlers react to, one completion per fetch, in the order they arrive. */
  datatype Event =
    | SetMode(mode: QueryParam)
    | SetValue(text: string)
    | Select(title: string)
    | Resolve(outcome: FetchOutcome)

  /** The invariant of the session: `docs` is a working set and `schemaType` is selectable. */
  ghost predicate Consistent(schema: Schema, s: State) {
    IsWorkingSet(s.docs, schema.typeNames) && Selectable(DocumentTypes(schema.original), s.schemaType)
  }

  /** The state right after mount: no documents yet, and the invariant already holds. */
  function Init(schema: Schema): (s: State)
    ensures Consistent(schema, s)
    ensures s.queryParam == Groq && s.value == "" && s.docs == []
    ensures s.schemaType == InitialSchemaType(DocumentTypes(schema.original))
  {
    State(Groq, "", InitialSchemaType(DocumentTypes(schema.original)), [])
  }

  /**
   * One handler run. Each event changes at most its own field, so the
   * handlers do not interfere; a rejected fetch changes nothing; and every
   * event keeps the invariant.
   */
  function Step(schema: Schema, s: State, e: Event): (t: State)
    ensures !e.SetMode? ==> t.queryParam == s.queryParam
    ensures !e.SetValue? ==> t.value == s.value
    ensures !e.Select? ==> t.schemaType == s.schemaType
    ensures !(e.Resolve? && e.outcome.Fetched?) ==> t.docs == s.docs
    ensures Consistent(schema, s) ==> Consistent(schema, t)
  {
    match e
    case SetMode(mode) => s.(queryParam := mode)
    case SetValue(text) => s.(value := text)
    case Select(title) =>
      LookupSelectable(DocumentTypes(schema.original), title);
      s.(schemaType := LookupName(DocumentTypes(schema.original), title))
    case Resolve(Fetched(res)) => s.(docs := RegisteredAndPublished(res, schema.typeNames))
    case Resolve(Rejected) => s
  }

  /** The events applied one after another, in arrival order; the invariant survives any sequence. */
  function Run(schema: Schema, s: State, events: seq<Event>): (t: State)
    ensures Consistent(schema, s) ==> Consistent(schema, t)
    decreases |events|
  {
    if events == [] then s
    else Step(schema, Run(schema, s, events[..|events| - 1]), events[|events| - 1])
  }

  /** A completion's `docs` do not depend on the `docs` it replaces: nothing is merged. */
  lemma ResolveReplaces(schema: Schema, s: State, s': State, res: seq<Doc>)
    ensures Step(schema, s, Resolve(Fetched(res))).docs == Step(schema, s', Resolve(Fetched(res))).docs
    ensures Step(schema, s, Resolve(Fetched(res))).docs == RegisteredAndPublished(res, schema.typeNames)
  {
  }

  /** A second completion of the same result changes nothing: re-querying is idempotent. */
  lemma ResolveIdempotent(schema: Schema, s: State, res: seq<Doc>)
    ensures var t := Step(schema, s, Resolve(Fetched(res)));
      Step(schema, t, Resolve(Fetched(res))) == t
  {
  }

  function ModeOf(e: Event): Option<QueryParam> {
    if e.SetMode? then Some(e.mode) else None
  }

  function TextOf(e: Event): Option<string> {
    if e.SetValue? then Some(e.text) else None
  }

  function TitleOf(e: Event): Option<string> {
    if e.Select? then Some(e.title) else None
  }

  function ResultOf(e: Event): Option<seq<Doc>> {
    if e.Resolve? && e.outcome.Fetched? then Some(e.outcome.res) else None
  }

  /** What the latest event carrying something of interest carries. */
  function Latest<T>(events: seq<Event>, f: Event -> Option<T>): Option<T>
    decreases |events|
  {
    if events == [] then None
    else if f(events[|events| - 1]).Some? then f(events[|events| - 1])
    else Latest(events[..|events| - 1], f)
  }

  /**
   * After any sequence of events each field is set by the latest event of its
   * own kind, or keeps its old value: in particular the completion that arrives
   * last decides `docs`, whatever the others returned.
   */
  lemma {:induction false} RunLatestWins(schema: Schema, s: State, events: seq<Event>)
    ensures var t := Run(schema, s, events);
      t.queryParam == Latest(events, ModeOf).GetOr(s.queryParam) &&
      t.value == Latest(events, TextOf).GetOr(s.value) &&
      t.schemaType == (match Latest(events, TitleOf)
                       case None => s.schemaType
                       case Some(title) => LookupName(DocumentTypes(schema.original), title)) &&
      t.docs == (match Latest(events, ResultOf)
                 case None => s.docs
                 case Some(res) => RegisteredAndPublished(res, schema.typeNames))
  {
    if events != [] {
      RunLatestWins(schema, s, events[..|events| - 1]);
    }
  }

  /** The component instance: the four pieces of `useState` state and the schema it was mounted with. */
  class DuplicatorQuery {
    const schema: Schema
    const schemaTypes: seq<string>
    const documentTypes: Option<seq<TypeDef>>
    var queryParam: QueryParam
    var value: string
    var schemaType: string
    var docs: seq<Doc>

    function Snapshot(): State
      reads this
    {
      State(queryParam, value, schemaType, docs)
    }

    ghost predicate Valid()
      reads this
    {
      schemaTypes == schema.typeNames &&
      documentTypes == DocumentTypes(schema.original) &&
      Consistent(schema, Snapshot())
    }

    /** Mount: mode `Groq`, empty query text, the first document type, no documents. */
    constructor (schema: Schema)
      ensures Valid()
      ensures this.schema == schema && Snapshot() == Init(schema)
      ensures queryParam == Groq && value == "" && docs == []
      ensures schemaType == InitialSchemaType(DocumentTypes(schema.original))
    {
      this.schema := schema;
      schemaTypes := schema.typeNames;
      documentTypes := DocumentTypes(schema.original);
      queryParam := Groq;
      value := "";
      schemaType := InitialSchemaType(DocumentTypes(schema.original));
      docs := [];
    }

    /** The mode selector's `onChange`. */
    method SetMode(mode: QueryParam)
      requires Valid()
      modifies this`queryParam
      ensures Valid() && Snapshot() == Step(schema, old(Snapshot()), Event.SetMode(mode))
      ensures queryParam == mode
    {
      queryParam := mode;
    }

    /** The query text input's `onChange`. */
    method SetValue(text: string)
      requires Valid()
      modifies this`value
      ensures Valid() && Snapshot() == Step(schema, old(Snapshot()), Event.SetValue(text))
      ensures value == text
    {
      value := text;
    }

    /** `handleSelect`: the title chosen in the dropdown becomes a type name. */
    method HandleSelect(title: string)
      requires Valid()
      modifies this`schemaType
      ensures Valid() && Snapshot() == Step(schema, old(Snapshot()), Event.Select(title))
      ensures schemaType == LookupName(documentTypes, title)
    {
      schemaType := LookupName(documentTypes, title);
      LookupSelectable(documentTypes, title);
    }

    /** `handleSubmit` issues a fetch of the query text exactly as typed. */
    method HandleSubmit() returns (query: string)
      ensures query == value
    {
      query := value;
    }

    /** `handleSelectSubmit` issues a fetch of the query for every document of the chosen type. */
    method HandleSelectSubmit() returns (query: string)
      ensures query == SelectQuery(schemaType)
      ensures QueriedType(query) == Some(schemaType)
    {
      query := SelectQuery(schemaType);
      QueriedTypeOfSelectQuery(schemaType);
    }

    /** The `.then` / `.catch` of either fetch: replace `docs` with the filtered result, or keep them. */
    method Resolve(outcome: FetchOutcome)
      requires Valid()
      modifies this`docs
      ensures Valid() && Snapshot() == Step(schema, old(Snapshot()), Event.Resolve(outcome))
      ensures outcome.Fetched? ==> docs == RegisteredAndPublished(outcome.res, schemaTypes)
      ensures outcome.Rejected? ==> docs == old(docs)
    {
      match outcome
      case Fetched(res) =>
        docs := RegisteredAndPublished(res, schemaTypes);
      case Rejected =>
    }
  }
}
