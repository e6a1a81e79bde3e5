/**
 * The property editor beside the canvas: it keeps a local copy of the
 * selected block, re-synchronises it when the selection changes, applies
 * content and style edits as shallow merges and reports each new block to
 * its parent (the `onUpdate` callback is the block a method returns).
 */
module BlockEditor {
  import opened Wrappers
  import opened BlockTypes
  import opened BlockSpread
  import BlockRenderer

  /** The padding the slider and its label show: a number as it is, anything else as 16. */
  function ShownPadding(b: EmailBlock): (n: int)
    ensures StyleField(b, PaddingKey).Int? ==> n == StyleField(b, PaddingKey).n
    ensures !StyleField(b, PaddingKey).Int? ==> n == 16
  {
    match StyleField(b, PaddingKey)
    case Int(v) => v
    case _ => 16
  }

  /** The colour the text background picker shows: "transparent" is shown as white. */
  function ShownColor(c: string): (shown: string)
    ensures c == "transparent" ==> shown == "#ffffff"
    ensures c != "transparent" ==> shown == c
  {
    if c == "transparent" then "#ffffff" else c
  }

  /** The style update the padding slider sends: always a plain number. */
  function PaddingSlide(v: int): StylePatch {
    EmptyStylePatch.(padding := Some(v))
  }

  /** The editor's state: the `block` prop it was last given and its local copy. */
  class Editor {
    var block: Option<EmailBlock>
    var localBlock: Option<EmailBlock>

    /** The local copy starts as the prop. */
    constructor (b: Option<EmailBlock>)
      ensures block == b && localBlock == b
    {
      block := b;
      localBlock := b;
    }

    /** A render with prop `b`: the effect replaces the local copy when the prop changed. */
    method ReceiveProp(b: Option<EmailBlock>)
      modifies this
      ensures block == b
      ensures b != old(block) ==> localBlock == b
      ensures b == old(block) ==> localBlock == old(localBlock)
    {
      if b != block {
        localBlock := b;
      }
      block := b;
    }

    /** `updateBlock`: the local copy becomes the merge, and the same block is reported. */
    method UpdateBlock(p: Patch) returns (reported: EmailBlock)
      requires localBlock.Some?
      modifies this
      ensures reported == Merge(old(localBlock).value, p)
      ensures localBlock == Some(reported) && block == old(block)
    {
      reported := Merge(localBlock.value, p);
      localBlock := Some(reported);
    }

    /** `updateStyle`: merges into the style of a block that has one; otherwise nothing happens. */
    method UpdateStyle(s: StylePatch) returns (reported: Option<EmailBlock>)
      requires localBlock.Some?
      modifies this
      ensures HasStyle(old(localBlock).value) ==>
        reported == Some(MergeStyle(old(localBlock).value, s)) && localBlock == reported
      ensures !HasStyle(old(localBlock).value) ==> reported == None && localBlock == old(localBlock)
      ensures block == old(block)
    {
      var current := localBlock.value;
      if HasStyle(current) {
        var updated := MergeStyle(current, s);
        localBlock := Some(updated);
        reported := Some(updated);
      } else {
        reported := None;
      }
    }

    /** A move of the padding slider to `v`. */
    method SlidePadding(v: int) returns (reported: Option<EmailBlock>)
      requires localBlock.Some?
      modifies this
      ensures HasStyle(old(localBlock).value) ==>
        reported == Some(MergeStyle(old(localBlock).value, PaddingSlide(v))) && localBlock == reported
      ensures !HasStyle(old(localBlock).value) ==> reported == None && localBlock == old(localBlock)
      ensures block == old(block)
    {
      reported := UpdateStyle(PaddingSlide(v));
    }
  }

  // ---------------------------------------------------------------------
  // Properties of the editor
  // ---------------------------------------------------------------------

  /** After the slider moves to `v`, the block's padding is `v` and the slider shows `v`. */
  lemma SlideThenShow(b: EmailBlock, v: int)
    requires DeclaresStyle(b, PaddingKey)
    ensures StyleField(MergeStyle(b, PaddingSlide(v)), PaddingKey) == Int(v)
    ensures ShownPadding(MergeStyle(b, PaddingSlide(v))) == v
  {
  }

  /** Sliding the padding changes nothing else: content and all other style properties are kept. */
  lemma SlideKeepsTheRest(b: EmailBlock, v: int)
    ensures var r := MergeStyle(b, PaddingSlide(v));
      BlockId(r) == BlockId(b) && BlockKind(r) == BlockKind(b)
      && (forall k :: Field(r, k) == Field(b, k))
      && (forall k :: k != PaddingKey ==> StyleField(r, k) == StyleField(b, k))
  {
  }

  /** A text block with four-sided padding shows 16 until edited, and a plain number afterwards. */
  lemma BoxPaddingShownAsSixteen(b: EmailBlock, v: int)
    requires b.Content? && b.block.Text? && b.block.textStyle.padding.Sides?
    ensures ShownPadding(b) == 16
    ensures var r := MergeStyle(b, PaddingSlide(v));
      r.Content? && r.block.Text? && r.block.textStyle.padding == Uniform(v) && ShownPadding(r) == v
  {
    PaddingEditCollapsesBox(b, v);
  }

  /** A spacer has no style: every style update leaves it as it is. */
  lemma SpacerIgnoresStyle(b: EmailBlock, s: StylePatch)
    requires b.Content? && b.block.Spacer?
    ensures MergeStyle(b, s) == b
  {
  }

  /**
   * The picker's white stands in exactly for the background the email
   * leaves out: the renderer omits a text background iff it is
   * "transparent", and only then does the picker show a value other than the stored one.
   */
  lemma PickerWhiteMatchesOmittedBackground(c: string)
    ensures BlockRenderer.ShownBackground(c).None? <==> c == "transparent"
    ensures BlockRenderer.ShownBackground(c).None? ==> ShownColor(c) == "#ffffff"
    ensures ShownColor(c) != c <==> c == "transparent"
  {
  }
}
