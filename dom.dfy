/** The parsed page as the crawlers read it. The HTML parser and the CSS
    selector engine (cheerio, `document.querySelectorAll`) are not modelled:
    a page is given as the function from a selector to the elements it
    matches, in document order. */
module Dom {
  import opened Wrappers
  import opened Strings

  /** One node: its tag name, its classes, its attributes and its text
      content (the text of all its descendants). */
  datatype Node = Node(tag: string, classes: set<string>, attrs: map<string, string>, text: string)

  /** A matched element with its descendants in document order, its parent
      when it has one, and the parent's descendants (the element and its
      siblings with their subtrees). */
  datatype Element = Element(node: Node, descendants: seq<Node>, parent: Option<Node>, parentDescendants: seq<Node>)

  /** The CSS engine: the elements a selector matches, in document order. */
  type Query = string -> seq<Element>

  /** A page fetched and loaded: its HTML text and the engine over it. */
  datatype Page = Page(html: string, query: Query)

  /** The matches of each selector, in selector order. */
  function Results(query: Query, selectors: seq<string>): (r: seq<seq<Element>>)
    ensures |r| == |selectors|
    ensures forall k :: 0 <= k < |selectors| ==> r[k] == query(selectors[k])
  {
    seq(|selectors|, k requires 0 <= k < |selectors| => query(selectors[k]))
  }

  /** `getAttribute(name)` / `.attr(name)` on a node that may be missing:
      absent attributes and missing nodes give `null`/`undefined`. */
  function Attr(n: Option<Node>, name: string): (r: Option<string>)
    ensures r.Some? <==> n.Some? && name in n.value.attrs
  {
    if n.Some? && name in n.value.attrs then Some(n.value.attrs[name]) else None
  }

  /** An attribute of the matched element itself. */
  function Own(e: Element, name: string): Option<string> {
    Attr(Some(e.node), name)
  }

  /** Node tests of the selectors used inside an element. */
  function Tag(t: string): Node -> bool {
    (n: Node) => n.tag == t
  }

  function AnyTag(ts: set<string>): Node -> bool {
    (n: Node) => n.tag in ts
  }

  function AnyClass(cs: set<string>): Node -> bool {
    (n: Node) => cs * n.classes != {}
  }

  /** The position of the first node that passes `p`, or `|ns|`. */
  function FirstIndex(ns: seq<Node>, p: Node -> bool): (k: nat)
    ensures k <= |ns|
    ensures k < |ns| ==> p(ns[k])
    ensures forall j :: 0 <= j < k ==> !p(ns[j])
    decreases |ns|
  {
    if ns == [] then 0
    else if p(ns[0]) then 0
    else 1 + FirstIndex(ns[1..], p)
  }

  /** `querySelector` / `.find(sel).first()`: the first node in document
      order that passes `p`. */
  function First(ns: seq<Node>, p: Node -> bool): (r: Option<Node>)
    ensures r.Some? <==> exists k :: 0 <= k < |ns| && p(ns[k])
    ensures r.Some? ==> r.value in ns && p(r.value)
  {
    var k := FirstIndex(ns, p);
    if k < |ns| then Some(ns[k]) else None
  }

  /** `.find(sel).text()`: the text of every node that passes `p`, joined in
      document order. */
  function TextOf(ns: seq<Node>, p: Node -> bool): (r: string)
    ensures (forall k :: 0 <= k < |ns| && p(ns[k]) ==> ns[k].text == "") ==> r == ""
    decreases |ns|
  {
    if ns == [] then ""
    else (if p(ns[0]) then ns[0].text else "") + TextOf(ns[1..], p)
  }

  /** The first `img` inside the element. */
  function FirstImg(e: Element): Option<Node> {
    First(e.descendants, Tag("img"))
  }

  /** The `||` chain the cheerio crawlers begin their titles with: the
      trimmed `.text-secondary` text, then the first image's `alt`, then its
      `title`, then the element's own `title`. */
  function LeadTitle(e: Element): Option<string> {
    var img := FirstImg(e);
    Or(Or(Or(Some(Trim(TextOf(e.descendants, AnyClass({"text-secondary"})))), Attr(img, "alt")), Attr(img, "title")),
       Own(e, "title"))
  }

  /** `data-src || src || data-original || data-lazy-src` of an image: the
      first truthy attribute in that order; when none is truthy, the value of
      `data-lazy-src` as it is. */
  function ImageAttrs(img: Option<Node>): (r: Option<string>)
    ensures Truthy(Attr(img, "data-src")) ==> r == Attr(img, "data-src")
    ensures !Truthy(Attr(img, "data-src")) && Truthy(Attr(img, "src")) ==> r == Attr(img, "src")
    ensures !Truthy(Attr(img, "data-src")) && !Truthy(Attr(img, "src")) && Truthy(Attr(img, "data-original")) ==>
              r == Attr(img, "data-original")
    ensures !Truthy(Attr(img, "data-src")) && !Truthy(Attr(img, "src")) && !Truthy(Attr(img, "data-original")) ==>
              r == Attr(img, "data-lazy-src")
  {
    Or(Or(Or(Attr(img, "data-src"), Attr(img, "src")), Attr(img, "data-original")), Attr(img, "data-lazy-src"))
  }

  /** The same chain with `data-srcset` as a fifth attribute. */
  function ImageSource(img: Option<Node>): Option<string> {
    Or(ImageAttrs(img), Attr(img, "data-srcset"))
  }
}
