/**
 * The block document of the drag-and-drop email editor: one row kind, the
 * columns a row holds, five leaf content kinds, and the factories that build
 * each kind with its default style and a fresh id made of a kind prefix and a
 * timestamp (`Date.now()`, here a parameter).
 */
module BlockTypes {
  import opened Wrappers
  import opened Strings

  datatype TextAlign = Left | Center | Right
  datatype FontWeight = Normal | Bold
  datatype VerticalAlign = Top | Middle | Bottom

  /** The CSS keyword each enumeration stands for. */
  function AlignName(a: TextAlign): string {
    match a
    case Left => "left"
    case Center => "center"
    case Right => "right"
  }

  function WeightName(w: FontWeight): string {
    match w
    case Normal => "normal"
    case Bold => "bold"
  }

  function VerticalAlignName(v: VerticalAlign): string {
    match v
    case Top => "top"
    case Middle => "middle"
    case Bottom => "bottom"
  }

  /** A four-sided padding, in pixels. */
  datatype Box = Box(top: int, right: int, bottom: int, left: int)

  /** A text block's padding: one number for all sides, or a four-sided box. */
  datatype Padding = Uniform(pixels: int) | Sides(box: Box)

  datatype RowStyle = RowStyle(backgroundColor: string, padding: int)

  datatype ColumnStyle = ColumnStyle(backgroundColor: string, padding: int, verticalAlign: VerticalAlign)

  datatype TextStyle = TextStyle(
    fontSize: int,
    fontWeight: FontWeight,
    fontFamily: string,
    textAlign: TextAlign,
    color: string,
    backgroundColor: string,
    padding: Padding,
    lineHeight: real)

  /** Width and height are CSS length strings such as "100%" or "auto". */
  datatype ImageStyle = ImageStyle(width: string, height: string, textAlign: TextAlign, padding: int)

  datatype ButtonStyle = ButtonStyle(
    backgroundColor: string,
    color: string,
    padding: int,
    borderRadius: int,
    textAlign: TextAlign,
    fontSize: int,
    fontWeight: FontWeight)

  datatype DividerStyle = DividerStyle(color: string, thickness: int, padding: int)

  /**
   * The leaf blocks. An image's optional `href` is the field `link` (a
   * button's `href` is not optional). `Unrecognized` stands for
   * a block whose `type` tag (kept in `kind`) names no block kind, as content
   * loaded from storage may hold; only the renderer's fallback handles it.
   */
  datatype ContentBlock =
    | Text(id: string, content: string, textStyle: TextStyle)
    | Image(id: string, src: string, alt: string, link: Option<string>, imageStyle: ImageStyle)
    | Button(id: string, text: string, href: string, buttonStyle: ButtonStyle)
    | Spacer(id: string, height: int)
    | Divider(id: string, dividerStyle: DividerStyle)
    | Unrecognized(id: string, kind: UnknownKind)

  /** A `type` tag that names no block kind at all. */
  type UnknownKind = k: string | k !in ["text", "image", "button", "spacer", "divider", "row", "column"]
    witness "unknown"

  /** A column holds content blocks only: a row can never be nested in a column. */
  datatype ColumnBlock = Column(id: string, width: int, blocks: seq<ContentBlock>, style: ColumnStyle)

  /** A top-level block: a row of columns, or a standalone content block. */
  datatype EmailBlock =
    | Row(id: string, columns: seq<ColumnBlock>, rowStyle: RowStyle)
    | Content(block: ContentBlock)

  datatype ContentStyle = ContentStyle(backgroundColor: string, fontFamily: string, maxWidth: int)

  /** A whole email: its top-level blocks and page style. */
  datatype EmailContent = EmailContent(blocks: seq<EmailBlock>, style: ContentStyle)

  /** The `type` tag of a content block: one of the five kinds exactly when the block is a known one. */
  function KindOf(b: ContentBlock): (k: string)
    ensures k in ContentKinds <==> !b.Unrecognized?
    ensures k != "row" && k != "column"
  {
    match b
    case Text(_, _, _) => "text"
    case Image(_, _, _, _, _) => "image"
    case Button(_, _, _, _) => "button"
    case Spacer(_, _) => "spacer"
    case Divider(_, _) => "divider"
    case Unrecognized(_, kind) => kind
  }

  /** The `type` tag of a top-level block. */
  function BlockKind(b: EmailBlock): string {
    match b
    case Row(_, _, _) => "row"
    case Content(c) => KindOf(c)
  }

  function BlockId(b: EmailBlock): string {
    match b
    case Row(id, _, _) => id
    case Content(c) => c.id
  }

  /** The five tags the factories produce. */
  const ContentKinds: seq<string> := ["text", "image", "button", "spacer", "divider"]

  /** The id prefix of each content kind: "text-", "img-", "btn-", "spacer-", "divider-". */
  function IdPrefix(kind: string): string
    requires kind in ContentKinds
  {
    match kind
    case "text" => "text-"
    case "image" => "img-"
    case "button" => "btn-"
    case "spacer" => "spacer-"
    case _ => "divider-"
  }

  /** `${prefix}${now}`. */
  function IdFor(prefix: string, now: nat): string {
    prefix + NatToString(now)
  }

  // ---------------------------------------------------------------------
  // Content factories
  // ---------------------------------------------------------------------

  function CreateTextBlock(now: nat): (b: ContentBlock)
    ensures KindOf(b) == "text" && b.id == IdFor(IdPrefix("text"), now)
    ensures b.Text? && b.content == "Enter your text here..."
    ensures b.Text? && b.textStyle.fontSize == 16 && b.textStyle.padding == Uniform(10)
    ensures b.Text? && b.textStyle.backgroundColor == "transparent"
  {
    Text(IdFor("text-", now), "Enter your text here...",
      TextStyle(16, Normal, "Arial", Left, "#000000", "transparent", Uniform(10), 1.5))
  }

  function CreateImageBlock(now: nat): (b: ContentBlock)
    ensures KindOf(b) == "image" && b.id == IdFor(IdPrefix("image"), now)
    ensures b.Image? && b.link == None && b.src != ""
  {
    Image(IdFor("img-", now), "/placeholder.svg?height=200&width=400", "Image", None,
      ImageStyle("100%", "auto", Center, 10))
  }

  function CreateButtonBlock(now: nat): (b: ContentBlock)
    ensures KindOf(b) == "button" && b.id == IdFor(IdPrefix("button"), now)
    ensures b.Button? && b.buttonStyle.padding == 12 && b.buttonStyle.borderRadius == 6
  {
    Button(IdFor("btn-", now), "Click Here", "#",
      ButtonStyle("#3b82f6", "#ffffff", 12, 6, Center, 16, Bold))
  }

  function CreateSpacerBlock(now: nat): (b: ContentBlock)
    ensures KindOf(b) == "spacer" && b.id == IdFor(IdPrefix("spacer"), now)
    ensures b.Spacer? && b.height == 20
  {
    Spacer(IdFor("spacer-", now), 20)
  }

  function CreateDividerBlock(now: nat): (b: ContentBlock)
    ensures KindOf(b) == "divider" && b.id == IdFor(IdPrefix("divider"), now)
    ensures b.Divider? && b.dividerStyle == DividerStyle("#e5e7eb", 1, 20)
  {
    Divider(IdFor("divider-", now), DividerStyle("#e5e7eb", 1, 20))
  }

  /** The factory for a content kind, as the palette and the add-content dialog dispatch to it. */
  function NewContentBlock(kind: string, now: nat): (b: ContentBlock)
    requires kind in ContentKinds
    ensures KindOf(b) == kind && b.id == IdFor(IdPrefix(kind), now)
  {
    match kind
    case "text" => CreateTextBlock(now)
    case "image" => CreateImageBlock(now)
    case "button" => CreateButtonBlock(now)
    case "spacer" => CreateSpacerBlock(now)
    case _ => CreateDividerBlock(now)
  }

  // ---------------------------------------------------------------------
  // Rows
  // ---------------------------------------------------------------------

  /** `Math.floor(100 / columnCount)`; for a count below one no column is built, so the value is never stored. */
  function ColumnWidth(columnCount: int): int {
    if columnCount > 0 then 100 / columnCount else 0
  }

  /** How many times the loop of `createRowBlock` runs. */
  function ColumnCount(columnCount: int): nat {
    if columnCount > 0 then columnCount else 0
  }

  /** `col-${now}-${i}`. */
  function ColumnId(now: nat, i: nat): string {
    "col-" + NatToString(now) + "-" + NatToString(i)
  }

  /** `row-${now}`. */
  function RowId(now: nat): string {
    "row-" + NatToString(now)
  }

  const NewColumnStyle: ColumnStyle := ColumnStyle("transparent", 10, Top)
  const NewRowStyle: RowStyle := RowStyle("transparent", 0)

  /** The `i`-th column pushed by `createRowBlock`. */
  function NewColumn(now: nat, i: nat, width: int): ColumnBlock {
    Column(ColumnId(now, i), width, [], NewColumnStyle)
  }

  /**
   * What `createRowBlock(columnCount)` returns. `Date.now()` is read once per
   * column and once more for the row: `clock(k)` is the `k`-th reading.
   */
  function NewRow(columnCount: int, clock: nat -> nat): EmailBlock {
    var n := ColumnCount(columnCount);
    Row(RowId(clock(n)), seq(n, i requires 0 <= i < n => NewColumn(clock(i), i, ColumnWidth(columnCount))), NewRowStyle)
  }

  /** `createRowBlock`: a loop pushes the columns one by one, then the row is built around them. */
  method CreateRowBlock(columnCount: int, clock: nat -> nat) returns (row: EmailBlock)
    ensures row == NewRow(columnCount, clock)
  {
    var columnWidth := ColumnWidth(columnCount);
    var columns: seq<ColumnBlock> := [];
    var i: nat := 0;
    while i < columnCount
      invariant i <= ColumnCount(columnCount)
      invariant |columns| == i
      invariant forall k :: 0 <= k < i ==> columns[k] == NewColumn(clock(k), k, columnWidth)
    {
      columns := columns + [NewColumn(clock(i), i, columnWidth)];
      i := i + 1;
    }
    var n := ColumnCount(columnCount);
    assert i == n;
    assert columns == seq(n, k requires 0 <= k < n => NewColumn(clock(k), k, ColumnWidth(columnCount)));
    row := Row(RowId(clock(i)), columns, NewRowStyle);
  }

  // ---------------------------------------------------------------------
  // Properties of new rows
  // ---------------------------------------------------------------------

  /** A new row has one column per requested column, each empty, `floor(100/n)` wide and default-styled. */
  lemma NewRowShape(columnCount: int, clock: nat -> nat)
    ensures var row := NewRow(columnCount, clock);
      && row.Row? && row.rowStyle == RowStyle("transparent", 0)
      && (columnCount >= 1 ==> |row.columns| == columnCount)
      && (columnCount < 1 ==> row.columns == [])
      && forall i :: 0 <= i < |row.columns| ==>
           && row.columns[i].width == 100 / columnCount
           && row.columns[i].blocks == []
           && row.columns[i].style == ColumnStyle("transparent", 10, Top)
  {
    var row := NewRow(columnCount, clock);
    forall i | 0 <= i < |row.columns|
      ensures row.columns[i].width == 100 / columnCount
      ensures row.columns[i].blocks == [] && row.columns[i].style == NewColumnStyle
    {
      assert row.columns[i] == NewColumn(clock(i), i, ColumnWidth(columnCount));
    }
  }

  function TotalWidth(columns: seq<ColumnBlock>): int {
    if columns == [] then 0 else TotalWidth(columns[..|columns| - 1]) + columns[|columns| - 1].width
  }

  lemma {:induction false} TotalWidthOfEqual(columns: seq<ColumnBlock>, w: int)
    requires forall i :: 0 <= i < |columns| ==> columns[i].width == w
    ensures TotalWidth(columns) == |columns| * w
  {
    if columns != [] {
      TotalWidthOfEqual(columns[..|columns| - 1], w);
    }
  }

  /**
   * The widths of a new row add up to at most 100, and fall short of 100 by
   * the remainder of 100 divided by the column count (less than one column).
   */
  lemma NewRowWidths(columnCount: int, clock: nat -> nat)
    requires columnCount >= 1
    ensures var total := TotalWidth(NewRow(columnCount, clock).columns);
      total == 100 - 100 % columnCount && 100 - columnCount < total <= 100
  {
    var columns := NewRow(columnCount, clock).columns;
    NewRowShape(columnCount, clock);
    TotalWidthOfEqual(columns, 100 / columnCount);
    DivisionOfHundred(columnCount);
  }

  lemma DivisionOfHundred(n: int)
    requires n >= 1
    ensures n * (100 / n) == 100 - 100 % n && 0 <= 100 % n < n
  {
  }

  /** Three columns are 33% each and cover 99% of the row. */
  lemma ThreeColumnsLeaveOnePercent(clock: nat -> nat)
    ensures var row := NewRow(3, clock);
      |row.columns| == 3 && row.columns[0].width == 33 && TotalWidth(row.columns) == 99
  {
    NewRowShape(3, clock);
    NewRowWidths(3, clock);
  }

  // ---------------------------------------------------------------------
  // Ids
  // ---------------------------------------------------------------------

  /** Splitting `digits + rest` where `rest` starts with a non-digit recovers both parts. */
  lemma {:induction false} SplitAfterDigits(a: string, x: string, c: string, y: string)
    requires AllDigits(a) && AllDigits(c)
    requires |x| > 0 && !IsDigit(x[0]) && |y| > 0 && !IsDigit(y[0])
    requires a + x == c + y
    ensures a == c && x == y
  {
    assert a == (a + x)[..|a|] && c == (c + y)[..|c|];
    assert x == (a + x)[|a|..] && y == (c + y)[|c|..];
  }

  /** The index of the first decimal digit in `s` (`|s|` if there is none). */
  function FirstDigit(s: string): (k: nat)
    ensures k <= |s|
  {
    if s == [] || IsDigit(s[0]) then 0 else 1 + FirstDigit(s[1..])
  }

  lemma {:induction false} FirstDigitAfterPrefix(p: string, a: string)
    requires forall i :: 0 <= i < |p| ==> !IsDigit(p[i])
    requires |a| > 0 && IsDigit(a[0])
    ensures FirstDigit(p + a) == |p|
  {
    if p != [] {
      assert (p + a)[1..] == p[1..] + a;
      FirstDigitAfterPrefix(p[1..], a);
    }
  }

  /** Splitting `prefix + digits` where the prefix holds no digit recovers both parts. */
  lemma {:induction false} SplitBeforeDigits(p: string, a: string, q: string, c: string)
    requires forall i :: 0 <= i < |p| ==> !IsDigit(p[i])
    requires forall i :: 0 <= i < |q| ==> !IsDigit(q[i])
    requires |a| > 0 && AllDigits(a) && |c| > 0 && AllDigits(c)
    requires p + a == q + c
    ensures p == q && a == c
  {
    FirstDigitAfterPrefix(p, a);
    FirstDigitAfterPrefix(q, c);
    assert p == (p + a)[..|p|] && q == (q + c)[..|q|];
    assert a == (p + a)[|p|..] && c == (q + c)[|q|..];
  }

  /**
   * Two column ids are equal exactly when they come from the same clock
   * reading and the same loop index.
   */
  lemma ColumnIdInjective(t1: nat, i: nat, t2: nat, j: nat)
    ensures ColumnId(t1, i) == ColumnId(t2, j) <==> t1 == t2 && i == j
  {
    if ColumnId(t1, i) == ColumnId(t2, j) {
      var a, c := NatToString(t1), NatToString(t2);
      var x, y := "-" + NatToString(i), "-" + NatToString(j);
      assert ColumnId(t1, i) == "col-" + (a + x);
      assert ColumnId(t2, j) == "col-" + (c + y);
      assert a + x == c + y by {
        assert a + x == ColumnId(t1, i)[4..];
        assert c + y == ColumnId(t2, j)[4..];
      }
      SplitAfterDigits(a, x, c, y);
      assert NatToString(i) == x[1..] && NatToString(j) == y[1..];
      NatToStringInjective(t1, t2);
      NatToStringInjective(i, j);
    }
  }

  /**
   * Within one new row the column ids are pairwise distinct and none equals
   * the row id, whatever the clock reads between the calls.
   */
  lemma NewRowIdsDistinct(columnCount: int, clock: nat -> nat)
    ensures var row := NewRow(columnCount, clock);
      && (forall i, j :: 0 <= i < j < |row.columns| ==> row.columns[i].id != row.columns[j].id)
      && (forall i :: 0 <= i < |row.columns| ==> row.columns[i].id != row.id)
  {
    var row := NewRow(columnCount, clock);
    forall i, j | 0 <= i < j < |row.columns|
      ensures row.columns[i].id != row.columns[j].id
    {
      ColumnIdInjective(clock(i), i, clock(j), j);
    }
    forall i | 0 <= i < |row.columns|
      ensures row.columns[i].id != row.id
    {
      assert row.columns[i].id == "col-" + (NatToString(clock(i)) + "-" + NatToString(i));
      assert row.id == "row-" + NatToString(clock(|row.columns|));
      assert row.columns[i].id[0] == 'c' && row.id[0] == 'r';
    }
  }

  /**
   * Content ids from the factories are equal exactly when the kinds and the
   * timestamps are equal: two factory calls in the same millisecond for the
   * same kind are the only collision.
   */
  lemma ContentIdsDistinct(k1: string, t1: nat, k2: string, t2: nat)
    requires k1 in ContentKinds && k2 in ContentKinds
    ensures IdFor(IdPrefix(k1), t1) == IdFor(IdPrefix(k2), t2) <==> k1 == k2 && t1 == t2
  {
    var p, q := IdPrefix(k1), IdPrefix(k2);
    if IdFor(p, t1) == IdFor(q, t2) {
      SplitBeforeDigits(p, NatToString(t1), q, NatToString(t2));
      NatToStringInjective(t1, t2);
    }
  }
}
