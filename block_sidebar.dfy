/**
 * The block palette: a table of six row layouts and a table of five content
 * kinds, and `createBlock`, which turns a palette key into a new block or
 * throws on a key it does not know.
 */
module BlockSidebar {
  import opened Wrappers
  import opened Strings
  import opened BlockTypes

  datatype LayoutOption = LayoutOption(key: string, title: string, description: string, columns: int)

  datatype ContentOption = ContentOption(key: string, title: string, description: string)

  /** `layoutTypes` (icons left out; `label` is the field `title`). */
  const LayoutTypes: seq<LayoutOption> := [
    LayoutOption("row-1", "1 Column", "Single column layout", 1),
    LayoutOption("row-2", "2 Columns", "Two column layout", 2),
    LayoutOption("row-3", "3 Columns", "Three column layout", 3),
    LayoutOption("row-4", "4 Columns", "Four column layout", 4),
    LayoutOption("row-5", "5 Columns", "Five column layout", 5),
    LayoutOption("row-6", "6 Columns", "Six column layout", 6)
  ]

  /** `contentTypes` (icons left out; `label` is the field `title`). */
  const ContentTypes: seq<ContentOption> := [
    ContentOption("text", "Text", "Add text content"),
    ContentOption("image", "Image", "Add an image"),
    ContentOption("button", "Button", "Add a call-to-action"),
    ContentOption("spacer", "Spacer", "Add vertical spacing"),
    ContentOption("divider", "Divider", "Add a horizontal line")
  ]

  /** JavaScript truthiness of the optional column count: absent and 0 are both false. */
  predicate Truthy(columns: Option<int>) {
    columns.Some? && columns.value != 0
  }

  /** The `row-` branch: a layout key together with a truthy column count. */
  predicate IsRowRequest(key: string, columns: Option<int>) {
    StartsWith(key, "row-") && Truthy(columns)
  }

  /**
   * `createBlock(type, columns?)`. `clock(k)` is the `k`-th reading of
   * `Date.now()` during the call; a thrown `Error` is a `Failure` carrying
   * its message.
   */
  function CreateBlock(key: string, columns: Option<int>, clock: nat -> nat): (r: Result<EmailBlock, string>)
    ensures IsRowRequest(key, columns) ==> r == Success(NewRow(columns.value, clock))
    ensures !IsRowRequest(key, columns) && key in ContentKinds ==>
      r == Success(Content(NewContentBlock(key, clock(0))))
    ensures !IsRowRequest(key, columns) && key !in ContentKinds ==>
      r == Failure("Unknown block type: " + key)
  {
    if IsRowRequest(key, columns) then Success(NewRow(columns.value, clock))
    else match key
      case "text" => Success(Content(CreateTextBlock(clock(0))))
      case "image" => Success(Content(CreateImageBlock(clock(0))))
      case "button" => Success(Content(CreateButtonBlock(clock(0))))
      case "spacer" => Success(Content(CreateSpacerBlock(clock(0))))
      case "divider" => Success(Content(CreateDividerBlock(clock(0))))
      case _ => Failure("Unknown block type: " + key)
  }

  /** The layout palette offers the column counts 1 to 6, in order, each once. */
  lemma LayoutCounts()
    ensures |LayoutTypes| == 6
    ensures forall i :: 0 <= i < |LayoutTypes| ==> LayoutTypes[i].columns == i + 1
    ensures forall o :: o in LayoutTypes ==> 1 <= o.columns <= 6
  {
  }

  /** Every layout button yields a row with as many columns as it advertises, each an equal share. */
  lemma LayoutButtonsBuildRows(clock: nat -> nat)
    ensures forall o :: o in LayoutTypes ==>
      var r := CreateBlock(o.key, Some(o.columns), clock);
      && r.Success? && r.value.Row?
      && |r.value.columns| == o.columns
      && forall i :: 0 <= i < o.columns ==> r.value.columns[i].width == 100 / o.columns
  {
    forall o | o in LayoutTypes
      ensures var r := CreateBlock(o.key, Some(o.columns), clock);
        && r.Success? && r.value.Row?
        && |r.value.columns| == o.columns
        && forall i :: 0 <= i < o.columns ==> r.value.columns[i].width == 100 / o.columns
    {
      assert StartsWith(o.key, "row-");
      NewRowShape(o.columns, clock);
    }
  }

  /** Every content button yields a standalone block of the kind it names. */
  lemma ContentButtonsBuildKinds(clock: nat -> nat)
    ensures forall o :: o in ContentTypes ==>
      var r := CreateBlock(o.key, None, clock);
      r.Success? && r.value.Content? && KindOf(r.value.block) == o.key
  {
    forall o | o in ContentTypes
      ensures var r := CreateBlock(o.key, None, clock);
        r.Success? && r.value.Content? && KindOf(r.value.block) == o.key
    {
      assert o.key in ContentKinds;
    }
  }

  /**
   * A layout key without a (truthy) column count falls through to the switch,
   * where no content kind starts with "row-", so it throws.
   */
  lemma RowKeyNeedsCount(key: string, columns: Option<int>, clock: nat -> nat)
    requires StartsWith(key, "row-") && !Truthy(columns)
    ensures CreateBlock(key, columns, clock) == Failure("Unknown block type: " + key)
  {
    assert key[0] == "row-"[0] == 'r';
    forall k | k in ContentKinds
      ensures k != key
    {
      assert k[0] != 'r';
    }
  }
}
