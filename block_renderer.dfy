/**
 * The block renderer: each block becomes nested, email-safe table markup.
 * A row is one table with one cell per column; a column cell holds a nested
 * table with one table row per content block (or a placeholder row when the
 * column is empty); a standalone content block is wrapped in a one-cell
 * table. Every content kind has its own cell template. The selection frame
 * and the edit/delete controls around a rendered block are not modelled.
 */
module BlockRenderer {
  import opened Wrappers
  import opened BlockTypes
  import opened Html

  /** `cellPadding="0" cellSpacing="0" border={0}`. */
  const TableAttrs: map<string, Css> := map["cellPadding" := Lit("0"), "cellSpacing" := Lit("0"), "border" := Lit("0")]

  /** The same, with `width="100%"`. */
  const FullWidthTableAttrs: map<string, Css> := TableAttrs["width" := Lit("100%")]

  /** `&nbsp;` */
  const Nbsp: string := "\U{00A0}"

  const PlaceholderImage: string := "/placeholder.svg"

  /** A background colour of "transparent" is passed as `undefined`, so it is left out. */
  function Background(color: string): (m: map<string, Css>)
    ensures "backgroundColor" in m <==> color != "transparent"
    ensures "backgroundColor" in m ==> m["backgroundColor"] == Lit(color)
    ensures m.Keys <= {"backgroundColor"}
  {
    if color == "transparent" then map[] else map["backgroundColor" := Lit(color)]
  }

  /** The background a cell shows, read from `Background`: none for "transparent", the colour otherwise. */
  function ShownBackground(color: string): (r: Option<Css>)
    ensures r.None? <==> color == "transparent"
    ensures r.Some? ==> r.value == Lit(color)
  {
    var m := Background(color);
    if "backgroundColor" in m then Some(m["backgroundColor"]) else None
  }

  /**
   * `${padding}px` for a text block: a number gives pixels, a four-sided box
   * turns into the text "[object Object]px", which no browser accepts.
   */
  function TextPadding(p: Padding): Css {
    match p
    case Uniform(v) => Px(v)
    case Sides(_) => Lit("[object Object]px")
  }

  /** The `href` test is JavaScript truthiness: absent and empty both mean no link. */
  predicate HasLink(link: Option<string>) {
    link.Some? && link.value != ""
  }

  function Tr(cells: seq<Node>): Node {
    Element("tr", map[], map[], cells)
  }

  function ImageElement(src: string, alt: string, style: ImageStyle): Node {
    Element("img",
      map["src" := Lit(if src != "" then src else PlaceholderImage), "alt" := Lit(alt)],
      map["width" := Lit(style.width), "height" := Lit(style.height), "maxWidth" := Lit("100%"), "display" := Lit("block")],
      [])
  }

  /** The `<img>` inside an image cell, looking through the optional `<a>`. */
  function ImageIn(td: Node): Node {
    var child := FirstChild(td);
    if child.Element? && child.tag == "a" then FirstChild(child) else child
  }

  /** The text cell: style fields inlined, the content inserted as raw HTML. */
  function TextCell(content: string, s: TextStyle): (td: Node)
    ensures IsElement(td, "td", 1)
    ensures StyleOf(td, "fontSize") == Some(Px(s.fontSize))
    ensures StyleOf(td, "fontWeight") == Some(Lit(WeightName(s.fontWeight)))
    ensures StyleOf(td, "textAlign") == Some(Lit(AlignName(s.textAlign)))
    ensures StyleOf(td, "color") == Some(Lit(s.color))
    ensures StyleOf(td, "lineHeight") == Some(Number(s.lineHeight))
    ensures StyleOf(td, "padding") == Some(TextPadding(s.padding))
    ensures StyleOf(td, "backgroundColor") == ShownBackground(s.backgroundColor)
    ensures StyleOf(td, "fontFamily") == None
    ensures FirstChild(td) == Element("div", map[], map[], [InnerHtml(content)])
  {
    Element("td", map[],
      map["fontSize" := Px(s.fontSize), "fontWeight" := Lit(WeightName(s.fontWeight)),
          "textAlign" := Lit(AlignName(s.textAlign)), "color" := Lit(s.color),
          "padding" := TextPadding(s.padding), "lineHeight" := Number(s.lineHeight)]
        + Background(s.backgroundColor),
      [Element("div", map[], map[], [InnerHtml(content)])])
  }

  /** The image cell: an `<img>`, inside an `<a>` exactly when the block has a non-empty link. */
  function ImageCell(src: string, alt: string, link: Option<string>, s: ImageStyle): (td: Node)
    ensures IsElement(td, "td", 1)
    ensures StyleOf(td, "textAlign") == Some(Lit(AlignName(s.textAlign)))
    ensures StyleOf(td, "padding") == Some(Px(s.padding))
    ensures IsElement(FirstChild(td), "a", 1) <==> HasLink(link)
    ensures HasLink(link) ==> AttrOf(FirstChild(td), "href") == Some(Lit(link.value))
    ensures IsElement(ImageIn(td), "img", 0)
    ensures AttrOf(ImageIn(td), "src") == Some(Lit(if src == "" then PlaceholderImage else src))
    ensures AttrOf(ImageIn(td), "alt") == Some(Lit(alt))
    ensures StyleOf(ImageIn(td), "width") == Some(Lit(s.width)) && StyleOf(ImageIn(td), "height") == Some(Lit(s.height))
    ensures StyleOf(ImageIn(td), "maxWidth") == Some(Lit("100%")) && StyleOf(ImageIn(td), "display") == Some(Lit("block"))
  {
    var img := ImageElement(src, alt, s);
    Element("td", map[],
      map["textAlign" := Lit(AlignName(s.textAlign)), "padding" := Px(s.padding)],
      [if HasLink(link) then Element("a", map["href" := Lit(link.value)], map[], [img]) else img])
  }

  /** The `<a>` of a button cell: cell, nested table, its row, its cell, then the anchor. */
  function ButtonAnchor(td: Node): Node {
    FirstChild(FirstChild(FirstChild(FirstChild(td))))
  }

  /** The button cell: a nested one-cell table whose anchor carries the clickable padding. */
  function ButtonCell(text: string, href: string, s: ButtonStyle): (td: Node)
    ensures var table := FirstChild(td);
      var cell := FirstChild(FirstChild(table));
      && IsElement(td, "td", 1) && IsElement(table, "table", 1)
      && IsElement(FirstChild(table), "tr", 1) && IsElement(cell, "td", 1)
      && StyleOf(td, "padding") == Some(Px(s.padding))
      && StyleOf(td, "textAlign") == Some(Lit(AlignName(s.textAlign)))
      && StyleOf(cell, "borderRadius") == Some(Px(s.borderRadius))
      && StyleOf(cell, "backgroundColor") == Some(Lit(s.backgroundColor))
    ensures var anchor := ButtonAnchor(td);
      && IsElement(anchor, "a", 1) && AttrOf(anchor, "href") == Some(Lit(href))
      && StyleOf(anchor, "padding") == Some(PxPair(s.padding, 24))
      && StyleOf(anchor, "color") == Some(Lit(s.color))
      && StyleOf(anchor, "fontSize") == Some(Px(s.fontSize))
      && StyleOf(anchor, "fontWeight") == Some(Lit(WeightName(s.fontWeight)))
      && StyleOf(anchor, "display") == Some(Lit("block")) && StyleOf(anchor, "textDecoration") == Some(Lit("none"))
      && anchor.children == [TextNode(text)]
  {
    var anchor := Element("a", map["href" := Lit(href)],
      map["display" := Lit("block"), "color" := Lit(s.color), "padding" := PxPair(s.padding, 24),
          "textDecoration" := Lit("none"), "fontSize" := Px(s.fontSize), "fontWeight" := Lit(WeightName(s.fontWeight))],
      [TextNode(text)]);
    var cell := Element("td", map[],
      map["backgroundColor" := Lit(s.backgroundColor), "borderRadius" := Px(s.borderRadius)],
      [anchor]);
    Element("td", map[],
      map["textAlign" := Lit(AlignName(s.textAlign)), "padding" := Px(s.padding)],
      [Element("table", TableAttrs, map[], [Tr([cell])])])
  }

  /** The spacer cell: an empty cell exactly `height` pixels tall. */
  function SpacerCell(height: int): (td: Node)
    ensures IsElement(td, "td", 1)
    ensures StyleOf(td, "height") == Some(Px(height)) && StyleOf(td, "lineHeight") == Some(Px(height))
    ensures StyleOf(td, "fontSize") == Some(Lit("1px"))
    ensures td.children == [TextNode(Nbsp)]
  {
    Element("td", map[],
      map["height" := Px(height), "lineHeight" := Px(height), "fontSize" := Lit("1px")],
      [TextNode(Nbsp)])
  }

  /** The divider cell: a padded cell around a full-width table whose one cell draws the top border. */
  function DividerCell(s: DividerStyle): (td: Node)
    ensures var line := FirstChild(FirstChild(FirstChild(td)));
      && IsElement(td, "td", 1) && StyleOf(td, "padding") == Some(Px(s.padding))
      && IsElement(FirstChild(td), "table", 1) && IsElement(line, "td", 1)
      && AttrOf(FirstChild(td), "width") == Some(Lit("100%"))
      && StyleOf(line, "borderTop") == Some(SolidBorder(s.thickness, s.color))
      && StyleOf(line, "fontSize") == Some(Lit("1px")) && StyleOf(line, "lineHeight") == Some(Lit("1px"))
      && line.children == [TextNode(Nbsp)]
  {
    var line := Element("td", map[],
      map["borderTop" := SolidBorder(s.thickness, s.color), "fontSize" := Lit("1px"), "lineHeight" := Lit("1px")],
      [TextNode(Nbsp)]);
    Element("td", map[], map["padding" := Px(s.padding)],
      [Element("table", FullWidthTableAttrs, map[], [Tr([line])])])
  }

  const UnknownCell: Node := Element("td", map[], map[], [TextNode("Unknown block type")])

  /** `renderContentBlock`: the `<td>` for one content block, chosen by its kind. */
  function RenderContentBlock(b: ContentBlock): (td: Node)
    ensures IsElement(td, "td", 1)
    ensures KindOf(b) !in ContentKinds <==> td == UnknownCell
    ensures b.Text? ==> td == TextCell(b.content, b.textStyle)
    ensures b.Image? ==> td == ImageCell(b.src, b.alt, b.link, b.imageStyle)
    ensures b.Button? ==> td == ButtonCell(b.text, b.href, b.buttonStyle)
    ensures b.Spacer? ==> td == SpacerCell(b.height)
    ensures b.Divider? ==> td == DividerCell(b.dividerStyle)
  {
    match b
    case Text(_, content, s) => TextCell(content, s)
    case Image(_, src, alt, link, s) => ImageCell(src, alt, link, s)
    case Button(_, text, href, s) => ButtonCell(text, href, s)
    case Spacer(_, height) => SpacerCell(height)
    case Divider(_, s) => DividerCell(s)
    case Unrecognized(_, _) => UnknownCell
  }

  /**
   * The row an empty column shows: "Drop content here", and an
   * "Add Content" button when the caller passed `onAddToColumn`.
   */
  function PlaceholderRow(canAddToColumn: bool): Node {
    var prompt := Element("span", map[], map[], [TextNode("Drop content here")]);
    var button := Element("button", map[], map[], [TextNode("Add Content")]);
    Tr([Element("td", map[],
      map["padding" := Lit("20px"), "textAlign" := Lit("center"), "color" := Lit("#9ca3af"),
          "border" := Lit("2px dashed #e5e7eb")],
      [Element("div", map[], map[], [prompt] + if canAddToColumn then [button] else [])])])
  }

  /** The table rows of a column's inner table. */
  function ColumnRows(blocks: seq<ContentBlock>, canAddToColumn: bool): seq<Node> {
    if |blocks| == 0 then [PlaceholderRow(canAddToColumn)]
    else seq(|blocks|, i requires 0 <= i < |blocks| => Tr([RenderContentBlock(blocks[i])]))
  }

  /** `renderColumn`: the `<td>` for one column. */
  function RenderColumn(c: ColumnBlock, canAddToColumn: bool): (td: Node)
    ensures var tbody := FirstChild(FirstChild(td));
      && IsElement(td, "td", 1) && IsElement(FirstChild(td), "table", 1)
      && AttrOf(td, "width") == Some(Percent(c.width))
      && StyleOf(td, "padding") == Some(Px(c.style.padding))
      && StyleOf(td, "verticalAlign") == Some(Lit(VerticalAlignName(c.style.verticalAlign)))
      && StyleOf(td, "backgroundColor") == ShownBackground(c.style.backgroundColor)
      && tbody.Element? && tbody.tag == "tbody"
      && (|c.blocks| == 0 ==> tbody.children == [PlaceholderRow(canAddToColumn)])
      && (|c.blocks| > 0 ==> |tbody.children| == |c.blocks|)
      && forall i :: 0 <= i < |c.blocks| ==> tbody.children[i] == Tr([RenderContentBlock(c.blocks[i])])
  {
    Element("td", map["width" := Percent(c.width)],
      map["padding" := Px(c.style.padding), "verticalAlign" := Lit(VerticalAlignName(c.style.verticalAlign))]
        + Background(c.style.backgroundColor),
      [Element("table", FullWidthTableAttrs, map[],
        [Element("tbody", map[], map[], ColumnRows(c.blocks, canAddToColumn))])])
  }

  /** The one `<tr>` of a rendered top-level block. */
  function TopRow(table: Node): Node {
    FirstChild(FirstChild(table))
  }

  /** `renderBlock`: a row, or a standalone content block wrapped in a one-cell table. */
  function RenderBlock(b: EmailBlock, canAddToColumn: bool): (table: Node)
    ensures IsElement(table, "table", 1) && IsElement(FirstChild(table), "tbody", 1)
    ensures AttrOf(table, "width") == Some(Lit("100%"))
    ensures TopRow(table).Element? && TopRow(table).tag == "tr"
    ensures b.Row? ==>
      && |TopRow(table).children| == |b.columns|
      && (forall i :: 0 <= i < |b.columns| ==> TopRow(table).children[i] == RenderColumn(b.columns[i], canAddToColumn))
      && StyleOf(table, "backgroundColor") == ShownBackground(b.rowStyle.backgroundColor)
    ensures b.Content? ==> TopRow(table).children == [RenderContentBlock(b.block)] && table.style == map[]
  {
    match b
    case Row(_, columns, s) =>
      Element("table", FullWidthTableAttrs, Background(s.backgroundColor),
        [Element("tbody", map[], map[],
          [Tr(seq(|columns|, i requires 0 <= i < |columns| => RenderColumn(columns[i], canAddToColumn)))])])
    case Content(c) =>
      Element("table", FullWidthTableAttrs, map[],
        [Element("tbody", map[], map[], [Tr([RenderContentBlock(c)])])])
  }

  // ---------------------------------------------------------------------
  // Properties of rendering
  // ---------------------------------------------------------------------

  /** The cells of a rendered row, in column order. */
  function Cells(table: Node): seq<Node> {
    var tr := TopRow(table);
    if tr.Element? then tr.children else []
  }

  /** The inner table rows of a rendered column cell. */
  function InnerRows(td: Node): seq<Node> {
    var tbody := FirstChild(FirstChild(td));
    if tbody.Element? then tbody.children else []
  }

  /**
   * A row fresh from `createRowBlock(n)` renders as `n` cells, each
   * `floor(100/n)`% wide and holding only the empty-column placeholder.
   */
  lemma NewRowRendersPlaceholders(n: int, clock: nat -> nat, canAddToColumn: bool)
    requires n >= 1
    ensures var cells := Cells(RenderBlock(NewRow(n, clock), canAddToColumn));
      && |cells| == n
      && forall i :: 0 <= i < n ==>
           && AttrOf(cells[i], "width") == Some(Percent(100 / n))
           && InnerRows(cells[i]) == [PlaceholderRow(canAddToColumn)]
  {
    var row := NewRow(n, clock);
    NewRowShape(n, clock);
    var cells := Cells(RenderBlock(row, canAddToColumn));
    forall i | 0 <= i < n
      ensures AttrOf(cells[i], "width") == Some(Percent(100 / n))
      ensures InnerRows(cells[i]) == [PlaceholderRow(canAddToColumn)]
    {
      assert cells[i] == RenderColumn(row.columns[i], canAddToColumn);
    }
  }

  /**
   * Three columns, the first holding one text block "Hello": three 33% cells;
   * the first holds one row whose cell carries "Hello", the other two the
   * placeholder.
   */
  lemma ThreeColumnsWithGreeting(clock: nat -> nat, now: nat)
    ensures var empty := NewRow(3, clock);
      var first := empty.columns[0].(blocks := [CreateTextBlock(now).(content := "Hello")]);
      var row := empty.(columns := empty.columns[0 := first]);
      var cells := Cells(RenderBlock(row, false));
      && |cells| == 3
      && (forall i :: 0 <= i < 3 ==> AttrOf(cells[i], "width") == Some(Percent(33)))
      && |InnerRows(cells[0])| == 1
      && FirstChild(FirstChild(InnerRows(cells[0])[0])) == Element("div", map[], map[], [InnerHtml("Hello")])
      && InnerRows(cells[1]) == InnerRows(cells[2]) == [PlaceholderRow(false)]
  {
    var empty := NewRow(3, clock);
    NewRowShape(3, clock);
    assert CreateTextBlock(now).Text?;
    var text := CreateTextBlock(now).(content := "Hello");
    var first := empty.columns[0].(blocks := [text]);
    var row := empty.(columns := empty.columns[0 := first]);
    var cells := Cells(RenderBlock(row, false));
    assert cells[0] == RenderColumn(first, false);
    assert InnerRows(cells[0])[0] == Tr([RenderContentBlock(text)]);
    assert cells[1] == RenderColumn(empty.columns[1], false);
    assert cells[2] == RenderColumn(empty.columns[2], false);
  }

  /** A row's own padding never reaches the markup: only its background colour does. */
  lemma RowPaddingNotRendered(id: string, columns: seq<ColumnBlock>, color: string, p1: int, p2: int, canAddToColumn: bool)
    ensures RenderBlock(Row(id, columns, RowStyle(color, p1)), canAddToColumn)
         == RenderBlock(Row(id, columns, RowStyle(color, p2)), canAddToColumn)
  {
  }

  /** Ids are React keys only: two blocks that differ only in their ids render alike. */
  lemma IdsNotRendered(b: ContentBlock, id: string)
    ensures RenderContentBlock(b.(id := id)) == RenderContentBlock(b)
  {
  }

  /**
   * A standalone content block and the same block inside a column are drawn
   * by the same cell routine.
   */
  lemma StandaloneSharesCellRoutine(b: ContentBlock, c: ColumnBlock, k: nat, canAddToColumn: bool)
    requires k < |c.blocks| && c.blocks[k] == b
    ensures Cells(RenderBlock(Content(b), canAddToColumn)) == [RenderContentBlock(b)]
    ensures InnerRows(RenderColumn(c, canAddToColumn))[k] == Tr(Cells(RenderBlock(Content(b), canAddToColumn)))
  {
  }
}
