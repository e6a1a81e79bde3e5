/**
 * An abstract form of the markup the block renderer produces: elements with
 * attributes, an inline style (a map, since React drops style properties
 * whose value is `undefined`) and children, text, and raw HTML inserted
 * unescaped.
 */
module Html {
  import opened Wrappers

  /**
   * A CSS or attribute value. `Px(n)` is the text `${n}px`, `PxPair(a, b)`
   * is `${a}px ${b}px`, `Percent(n)` is `${n}%`, `SolidBorder(w, c)` is
   * `${w}px solid ${c}`, `Number(x)` a unitless number and `Lit(s)` the
   * string `s` as written.
   */
  datatype Css =
    | Lit(s: string)
    | Px(n: int)
    | PxPair(first: int, second: int)
    | Percent(n: int)
    | Number(x: real)
    | SolidBorder(width: int, color: string)

  datatype Node =
    | Element(tag: string, attrs: map<string, Css>, style: map<string, Css>, children: seq<Node>)
    | TextNode(text: string)
    | InnerHtml(html: string)

  /** An element of the given tag with exactly `count` children. */
  predicate IsElement(n: Node, tag: string, count: nat) {
    n.Element? && n.tag == tag && |n.children| == count
  }

  /** The first child of an element (an empty text node when there is none). */
  function FirstChild(n: Node): Node {
    if n.Element? && |n.children| > 0 then n.children[0] else TextNode("")
  }

  /** The value of an inline style property, if the element sets it. */
  function StyleOf(n: Node, prop: string): Option<Css> {
    if n.Element? && prop in n.style then Some(n.style[prop]) else None
  }

  /** The value of an attribute, if the element sets it. */
  function AttrOf(n: Node, name: string): Option<Css> {
    if n.Element? && name in n.attrs then Some(n.attrs[name]) else None
  }
}
