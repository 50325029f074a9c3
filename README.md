# Document selection of the cross-dataset duplicator

This project models the component `DuplicatorQuery` (`src/components/DuplicatorQuery.tsx`), which chooses the
documents an operator is about to duplicate into another dataset. The operator either types a GROQ query
(mode `Groq`) or chooses a document type from a dropdown (mode `Dropdown`). The component fetches the query from the
content store. It keeps only the documents whose `_type` the schema registers and whose `_id` does not start with
`drafts.`. The survivors replace `initialData.docs`, the working set handed to the duplicator.

Modules, one per part of the component:

- `JsArray` (JsArray.dfy): `Array.prototype.filter`, `map` and `find` on sequences, with their laws.
- `DocumentFilter` (DocumentFilter.dfy): documents, the draft prefix, and the two-pass filter `RegisteredAndPublished`.
- `SchemaTypes` (SchemaTypes.dfy): type definitions, `documentTypes`, the title lookup of `handleSelect`, and the
  Dropdown query string with its inverse `QueriedType`.
- `Session` (Session.dfy): the `useState` state as a pure reducer `Step`/`Run` and as the class `DuplicatorQuery`.
  The class methods are proved to perform `Step` and to keep the invariant `Consistent`.
- `Presenter` (Presenter.dfy): the slot below the query card, modelled only for the finding below.
- `Wrappers` (Wrappers.dfy): `Option`, the model of a value that may be `undefined`.

The content store is not modelled. `HandleSubmit` and `HandleSelectSubmit` return the query string they would fetch.
The fetch's outcome comes back as a separate `Resolve(Fetched(res))` or `Resolve(Rejected)` event. Events are applied
in arrival order, so the completion applied last decides `docs`.

Behaviour of the code worth knowing:

- The empty-state card at lines 210-219 is never mounted (see Findings).
- Concurrent fetches are not guarded: the completion applied last wins (`Session.RunLatestWins`).
- Schema conformance is membership in `schema.getTypeNames()` (line 39), which lists every registered type name, not only document types.
  The dropdown, in contrast, offers only the entries whose `type` is `document` (lines 41-48).
- A document type without a `title` is rendered as an option whose value is `''` (line 192). `handleSelect` finds no type with that title, so choosing it sets `schemaType` to `''` (`SchemaTypes.UntitledFirstTypeNotFound`). Titles whose whitespace the browser normalises in the option value fail to match the same way; that normalisation is not modelled.
- The automatic load on mount (lines 114-119) never fires because `value` starts empty (line 52). It is not modelled.

## Model

| member | source | states |
|---|---|---|
| DocumentFilter.RegisteredAndPublished | src/components/DuplicatorQuery.tsx:66-70 | every kept document has a registered `_type` and a non-draft `_id`; an empty result gives `[]` |
| DocumentFilter.TwoPassesAreOne | src/components/DuplicatorQuery.tsx:66-70 | the schema pass followed by the draft pass equals one filter by the combined condition |
| DocumentFilter.PassOrderIrrelevant | src/components/DuplicatorQuery.tsx:67-69 | the two passes are independent: running the draft pass first gives the same working set |
| DocumentFilter.KeptIff | src/components/DuplicatorQuery.tsx:68-69 | a document is kept if and only if it is in the result, its `_type` is in `schemaTypes` and its `_id` does not start with `drafts.` |
| DocumentFilter.KeptMultiplicity | src/components/DuplicatorQuery.tsx:66-70 | every occurrence of an eligible document is kept and no occurrence of any other |
| DocumentFilter.KeptInOrder | src/components/DuplicatorQuery.tsx:66-70 | the kept documents are a subsequence of the raw result (relative order preserved) |
| DocumentFilter.KeptConcat | src/components/DuplicatorQuery.tsx:66-70 | filtering a concatenation is the concatenation of the filtered parts |
| DocumentFilter.FixedPointIffWorkingSet | src/components/DuplicatorQuery.tsx:66-70 | the filter leaves a sequence unchanged if and only if it is already a working set |
| DocumentFilter.Idempotent | src/components/DuplicatorQuery.tsx:66-70 | filtering an already filtered result returns it unchanged |
| DocumentFilter.DraftOfRegisteredTypeDropped | src/components/DuplicatorQuery.tsx:69 | of a published `article` and its `drafts.` copy only the published one survives |
| DocumentFilter.UnregisteredTypeDropped | src/components/DuplicatorQuery.tsx:68 | a document of an unregistered type is dropped |
| JsArray.Filter | src/components/DuplicatorQuery.tsx:67-69 | `filter` keeps only elements satisfying the callback and never lengthens the array |
| JsArray.Map | src/components/DuplicatorQuery.tsx:42-47 | `map` gives an array of the same length whose element at each index is the callback applied to the input element there |
| JsArray.Find | src/components/DuplicatorQuery.tsx:109 | `find` gives `undefined` when nothing matches and otherwise the first matching element |
| JsArray.FindFirstIndex | src/components/DuplicatorQuery.tsx:109 | a found element sits at an index where the callback holds and fails at every earlier index |
| SchemaTypes.DocumentTypes | src/components/DuplicatorQuery.tsx:41-48 | `documentTypes` is absent exactly when the original definitions are, and holds only `document` entries |
| SchemaTypes.MapThenDropNulls | src/components/DuplicatorQuery.tsx:42-48 | mapping non-documents to `null` and dropping the `null`s is the filter by kind |
| SchemaTypes.DocumentTypesExact | src/components/DuplicatorQuery.tsx:41-48 | the dropdown holds each `document` entry as often as declared, nothing else, in declaration order |
| SchemaTypes.LookupName | src/components/DuplicatorQuery.tsx:107-111 | the new `schemaType` is the name of the first document type with the chosen title, or `''` when none has it or `documentTypes` is absent |
| SchemaTypes.LookupSelectable | src/components/DuplicatorQuery.tsx:108-110 | every looked-up `schemaType` is `''` or the name of a document type |
| SchemaTypes.InitialSchemaType | src/components/DuplicatorQuery.tsx:53 | the initial `schemaType` is the first document type's name when there is one and `''` otherwise, so it is always selectable |
| SchemaTypes.FirstOptionIsInitial | src/components/DuplicatorQuery.tsx:53 | looking up the first document type's `title`, when it has one, gives the initial `schemaType` |
| SchemaTypes.UntitledFirstTypeNotFound | src/components/DuplicatorQuery.tsx:109 | for a first document type without a title, the initial `schemaType` is its name but looking up the empty option value gives `''` |
| SchemaTypes.AmbiguousTitleFirstDeclared | src/components/DuplicatorQuery.tsx:109 | when two types share the title `Article`, the one declared first is chosen |
| SchemaTypes.SelectQuery | src/components/DuplicatorQuery.tsx:87 | the Dropdown query is `*[_type == "`, then the type name unescaped, then `"]` |
| SchemaTypes.QueriedTypeOfSelectQuery | src/components/DuplicatorQuery.tsx:87 | reading the type back from the Dropdown query gives the type it was built from |
| SchemaTypes.SelectQueryOfQueriedType | src/components/DuplicatorQuery.tsx:87 | every query of the Dropdown form is the query built from the type it names |
| SchemaTypes.SelectQueryInjective | src/components/DuplicatorQuery.tsx:87 | different types give different queries |
| Session.Init | src/components/DuplicatorQuery.tsx:50-57 | the mount state is mode `Groq`, `value == ''`, `schemaType` the initial one (`InitialSchemaType`), `docs == []`, and already satisfies the invariant (`docs` a working set, `schemaType` selectable) |
| Session.Step | src/components/DuplicatorQuery.tsx:64-111 | each handler changes at most its own field: changing mode touches only `queryParam`, typing only `value`, selecting only `schemaType`, a completed fetch only `docs`, a rejected fetch nothing; every handler keeps the invariant |
| Session.Run | src/components/DuplicatorQuery.tsx:50-157 | any sequence of handler runs, applied in arrival order, keeps the invariant |
| Session.ResolveReplaces | src/components/DuplicatorQuery.tsx:75-78 | a completion sets `docs` to the filtered result whatever `docs` was before (no merge) |
| Session.ResolveIdempotent | src/components/DuplicatorQuery.tsx:99-102 | applying the same completion twice changes nothing the second time |
| Session.RunLatestWins | src/components/DuplicatorQuery.tsx:75-80 | after any events, each field is set by the latest event of its kind; the last successful completion decides `docs`, and rejections are ignored |
| Session.DuplicatorQuery.constructor | src/components/DuplicatorQuery.tsx:50-57 | mount state: mode `Groq`, `value == ''`, `schemaType` the first document type's name or `''`, `docs == []` |
| Session.DuplicatorQuery.SetMode | src/components/DuplicatorQuery.tsx:136 | sets `queryParam` and nothing else |
| Session.DuplicatorQuery.SetValue | src/components/DuplicatorQuery.tsx:157 | sets `value` and nothing else |
| Session.DuplicatorQuery.HandleSelect | src/components/DuplicatorQuery.tsx:107-111 | sets `schemaType` to the title lookup and nothing else |
| Session.DuplicatorQuery.HandleSubmit | src/components/DuplicatorQuery.tsx:59-63 | fetches the query text exactly as typed, changing no state |
| Session.DuplicatorQuery.HandleSelectSubmit | src/components/DuplicatorQuery.tsx:83-87 | fetches exactly `*[_type == "` + `schemaType` + `"]`, which names `schemaType`, changing no state |
| Session.DuplicatorQuery.Resolve | src/components/DuplicatorQuery.tsx:62-80 | a fetched result replaces `docs` with its filtered form; a rejection leaves `docs` unchanged |
| Presenter.EmptyResultShowsNoCard | src/components/DuplicatorQuery.tsx:210-219 | an empty result after a typed query mounts no card as written and the no-match card when corrected |
| Presenter.PageShowsOneNode | src/components/DuplicatorQuery.tsx:210-227 | with the corrected slot the mounted node is the prompt card when `docs` is empty and nothing was typed, the no-match card when something was typed, otherwise the duplicator holding exactly `docs` |
| Presenter.EmptyStateSlotAsWritten | src/components/DuplicatorQuery.tsx:210-219 | as written, the empty-state expression mounts nothing for every `docs` and `value` |
| Presenter.EmptyStateSlot | src/components/DuplicatorQuery.tsx:210-219 | corrected slot: a card is mounted exactly when `docs` is empty, with the prompt or no-match text chosen by `value` |
| Presenter.DuplicatorSlot | src/components/DuplicatorQuery.tsx:220-227 | the duplicator is mounted exactly when `docs` is non-empty, and it receives exactly `docs` |
| Presenter.Page | src/components/DuplicatorQuery.tsx:210-227 | with the corrected empty-state slot, exactly one node is mounted below the query card |

`Session.DuplicatorQuery.Resolve` models both `.then`/`.catch` pairs. The Dropdown pair at lines 88-104 is identical to the one cited.

## Left out

- Fetching (`originClient.fetch`): the network and the promise are not modelled. A completion is an input event carrying `Fetched(res)` or `Rejected`.
- GROQ semantics: query strings are opaque, and the model does not say which documents a query selects.
- Racing fetches: completions are applied one at a time in arrival order. Which request a completion belongs to is not recorded.
- JavaScript result shapes: `res` is always a sequence. A non-array result, `res.length` on an object, and a missing `_id` that would throw inside `.filter` are not modelled.
- `SchemaTypes.SelectQuery`: `schemaType` is inserted without escaping, as in the source. A name containing `"` gives a malformed query, which is not modelled because GROQ is opaque.
- Rendering: the `@sanity/ui` layout, the `Duplicator` child (`./Duplicator` is not part of this model), `token` and `pluginConfig` passed through, `console.error`, and `e.preventDefault`. The `disabled` states of the two buttons are rendering only, so the submit methods have no precondition.
- The mount `useEffect` (lines 114-119): it is lifecycle scheduling, and it never fires because `value` starts as `''`.
- Document fields besides `_id` and `_type` are an opaque string map that the filter carries along unchanged.

## Findings

| source | as written | input that shows it | evidently intended | confidence | as-written member | corrected member |
|---|---|---|---|---|---|---|
| src/components/DuplicatorQuery.tsx:210-219 | `!docs.length \|\| (docs.length < 1 && <Card/>)`: with no documents `\|\|` yields `true`, with documents `&&` yields `false`; React mounts nothing for either | `docs == []` with `value` a typed query: no "No Documents registered to the Schema match this query" card appears | `docs.length < 1 && <Card/>`: the card (prompt or no-match text) whenever there are no documents | high (not executed) | Presenter.EmptyStateSlotAsWritten, Presenter.EmptyResultShowsNoCard | Presenter.EmptyStateSlot, Presenter.Page, Presenter.PageShowsOneNode |
