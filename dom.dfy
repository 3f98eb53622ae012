/** The part of a parsed HTML document the program reads. Parsing and CSS
    selector matching belong to the HTML library; its results (an element's
    attributes, its child nodes, the first element a selector finds) are
    inputs here. */
module Dom {
  import opened Types

  /** A node of the document tree: text, an element with its local name,
      attributes and children, or any other node kind (comment, doctype, ...). */
  datatype Node =
    | Text(text: string)
    | Element(name: string, attrs: map<string, string>, children: seq<Node>)
    | Other

  /** A node a selector returned: selectors only ever match elements. */
  type ElementNode = n: Node | n.Element? witness Element("", map[], [])

  /** `Element::attr`. */
  function Attr(e: ElementNode, key: string): (r: Option<string>)
    ensures r.Some? <==> key in e.attrs
    ensures r.Some? ==> r.value == e.attrs[key]
  {
    if key in e.attrs then Some(e.attrs[key]) else None
  }

  /** The items of `ElementRef::text()` over a list of sibling nodes: every text
      node below them, in document (depth-first) order. */
  function TextsOf(ns: seq<Node>): seq<string>
    decreases ns
  {
    if ns == [] then []
    else
      (match ns[0]
       case Text(t) => [t]
       case Element(_, _, cs) => TextsOf(cs)
       case Other => []) + TextsOf(ns[1..])
  }

  /** `ElementRef::text().next()` for an element with children `ns`: the first
      text node found by depth-first descent, if any. */
  function FirstTextIn(ns: seq<Node>): (r: Option<string>)
    decreases ns
  {
    if ns == [] then None
    else
      match ns[0]
      case Text(t) => Some(t)
      case Element(_, _, cs) =>
        (var f := FirstTextIn(cs); if f.Some? then f else FirstTextIn(ns[1..]))
      case Other => FirstTextIn(ns[1..])
  }

  function FirstText(e: ElementNode): Option<string> {
    FirstTextIn(e.children)
  }

  /** The first text found by descent is the head of the full text iterator. */
  lemma {:induction false} FirstTextIsHeadOfTexts(ns: seq<Node>)
    ensures FirstTextIn(ns) == if TextsOf(ns) == [] then None else Some(TextsOf(ns)[0])
    decreases ns
  {
    if ns != [] {
      FirstTextIsHeadOfTexts(ns[1..]);
      match ns[0]
      case Text(t) =>
      case Element(_, _, cs) =>
        FirstTextIsHeadOfTexts(cs);
      case Other =>
    }
  }
}
