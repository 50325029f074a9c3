/**
 * The slot below the query card: an empty-state card when there are no
 * documents, the duplicator when there are some. The JSX is modelled with
 * JavaScript's `||` and `&&`, which yield one of their operands, and React's
 * rule that a boolean child mounts nothing.
 */
module Presenter {
  import opened Wrappers
  import opened DocumentFilter
  import Session

  /** What the slot can mount. */
  datatype Node = EmptyStateCard(message: string) | DuplicatorView(docs: seq<Doc>)

  /** The value of a JSX child expression. */
  datatype Child = Bool(b: bool) | Element(node: Node)

  predicate Truthy(c: Child) {
    match c
    case Bool(b) => b
    case Element(_) => true
  }

  /** JavaScript's `a || b`. */
  function Or(a: Child, b: Child): Child {
    if Truthy(a) then a else b
  }

  /** JavaScript's `a && b`. */
  function And(a: Child, b: Child): Child {
    if Truthy(a) then b else a
  }

  /** What React mounts for a child: nothing for `true` or `false`. */
  function Mounted(c: Child): Option<Node> {
    match c
    case Bool(_) => None
    case Element(n) => Some(n)
  }

  const NoMatchMessage: string := "No Documents registered to the Schema match this query"
  const PromptMessage: string := "Start with a valid GROQ query"

  /** The card's text: a query has been typed, or not. */
  function EmptyStateMessage(value: string): string {
    if value != "" then NoMatchMessage else PromptMessage
  }

  function Card(value: string): Child {
    Element(EmptyStateCard(EmptyStateMessage(value)))
  }

  /**
   * The empty-state expression as written, `!docs.length || (docs.length < 1 && <Card/>)`.
   * It never mounts the card: with no documents `||` stops at `true`.
   */
  function EmptyStateSlotAsWritten(docs: seq<Doc>, value: string): (slot: Option<Node>)
    ensures slot == None
  {
    Mounted(Or(Bool(|docs| == 0), And(Bool(|docs| < 1), Card(value))))
  }

  /** The card the empty-state expression evidently means: `docs.length < 1 && <Card/>`. */
  function EmptyStateSlot(docs: seq<Doc>, value: string): (slot: Option<Node>)
    ensures slot.Some? <==> docs == []
    ensures slot.Some? ==> slot.value == EmptyStateCard(EmptyStateMessage(value))
  {
    Mounted(And(Bool(|docs| < 1), Card(value)))
  }

  /** `docs.length > 0 && <Duplicator docs={docs} .../>`. */
  function DuplicatorSlot(docs: seq<Doc>): (slot: Option<Node>)
    ensures slot.Some? <==> docs != []
    ensures slot.Some? ==> slot.value == DuplicatorView(docs)
  {
    Mounted(And(Bool(|docs| > 0), Element(DuplicatorView(docs))))
  }

  /** An empty result after a typed query: the card is missing as written and present when corrected. */
  lemma EmptyResultShowsNoCard()
    ensures EmptyStateSlotAsWritten([], "*[_type == \"article\"]") == None
    ensures EmptyStateSlot([], "*[_type == \"article\"]") == Some(EmptyStateCard(NoMatchMessage))
  {
  }

  /** The nodes mounted below the query card for a session state, in document order. */
  function Page(s: Session.State): (nodes: seq<Node>)
    ensures |nodes| == 1
  {
    (match EmptyStateSlot(s.docs, s.value) case None => [] case Some(n) => [n]) +
    (match DuplicatorSlot(s.docs) case None => [] case Some(n) => [n])
  }

  /**
   * The one mounted node is the prompt or the no-match card when there
   * are no documents, otherwise the duplicator handed exactly the working set.
   */
  lemma PageShowsOneNode(s: Session.State)
    ensures s.docs == [] && s.value == "" ==> Page(s)[0] == EmptyStateCard(PromptMessage)
    ensures s.docs == [] && s.value != "" ==> Page(s)[0] == EmptyStateCard(NoMatchMessage)
    ensures s.docs != [] ==> Page(s)[0] == DuplicatorView(s.docs)
  {
  }
}
