/**
 * Object spread on blocks: `{ ...block, ...updates }` and
 * `{ ...block.style, ...styleUpdates }`, the shallow merges the property
 * editor and the add-content dialog build blocks with. A patch names some
 * of a block's own fields; what the merge does is stated through two
 * observation functions, `Field` and `StyleField`, which read one named
 * property of a block (and together read all of it, see `Extensionality`).
 */
module BlockSpread {
  import opened Wrappers
  import opened BlockTypes

  /** The value of one property; `Absent` when the block has no such property or leaves it unset. */
  datatype Value =
    | Absent
    | Str(s: string)
    | Int(n: int)
    | Real(x: real)
    | Weight(w: FontWeight)
    | Align(a: TextAlign)
    | BoxValue(box: Box)

  /** The top-level properties a patch can set (`id` and `type` are never patched). */
  datatype Key = ContentKey | SrcKey | AltKey | HrefKey | TextKey | HeightKey

  /** The style properties a style patch can set. */
  datatype StyleKey =
    | FontSizeKey | FontWeightKey | FontFamilyKey | TextAlignKey | ColorKey | BackgroundColorKey
    | PaddingKey | LineHeightKey | WidthKey | ImageHeightKey | BorderRadiusKey | ThicknessKey

  /** A `Partial<EmailBlock>` without `id`, `type` and `style`: each present field overrides. */
  datatype Patch = Patch(
    content: Option<string>,
    src: Option<string>,
    alt: Option<string>,
    href: Option<string>,
    text: Option<string>,
    height: Option<int>)

  const EmptyPatch: Patch := Patch(None, None, None, None, None, None)

  /** The style updates the editor sends; a padding is always a plain number there. */
  datatype StylePatch = StylePatch(
    fontSize: Option<int>,
    fontWeight: Option<FontWeight>,
    fontFamily: Option<string>,
    textAlign: Option<TextAlign>,
    color: Option<string>,
    backgroundColor: Option<string>,
    padding: Option<int>,
    lineHeight: Option<real>,
    width: Option<string>,
    height: Option<string>,
    borderRadius: Option<int>,
    thickness: Option<int>)

  const EmptyStylePatch: StylePatch := StylePatch(None, None, None, None, None, None, None, None, None, None, None, None)

  function StrOf(o: Option<string>): Value {
    if o.Some? then Str(o.value) else Absent
  }

  /** The value of top-level property `k` of `b`. */
  function Field(b: EmailBlock, k: Key): Value {
    match b
    case Row(_, _, _) => Absent
    case Content(c) =>
      match c
      case Text(_, content, _) => if k == ContentKey then Str(content) else Absent
      case Image(_, src, alt, link, _) =>
        if k == SrcKey then Str(src) else if k == AltKey then Str(alt) else if k == HrefKey then StrOf(link) else Absent
      case Button(_, text, href, _) =>
        if k == TextKey then Str(text) else if k == HrefKey then Str(href) else Absent
      case Spacer(_, height) => if k == HeightKey then Int(height) else Absent
      case Divider(_, _) => Absent
      case Unrecognized(_, _) => Absent
  }

  /** Whether the kind of `b` declares property `k` (an image declares its optional `href`). */
  predicate Declares(b: EmailBlock, k: Key) {
    match b
    case Row(_, _, _) => false
    case Content(c) =>
      match c
      case Text(_, _, _) => k == ContentKey
      case Image(_, _, _, _, _) => k == SrcKey || k == AltKey || k == HrefKey
      case Button(_, _, _, _) => k == TextKey || k == HrefKey
      case Spacer(_, _) => k == HeightKey
      case Divider(_, _) => false
      case Unrecognized(_, _) => false
  }

  /** The value patch `p` gives property `k`, `Absent` if it does not name it. */
  function Proposed(p: Patch, k: Key): Value {
    match k
    case ContentKey => StrOf(p.content)
    case SrcKey => StrOf(p.src)
    case AltKey => StrOf(p.alt)
    case HrefKey => StrOf(p.href)
    case TextKey => StrOf(p.text)
    case HeightKey => if p.height.Some? then Int(p.height.value) else Absent
  }

  /** A text block's padding as the style object holds it: a number or a box. */
  function PaddingValue(p: Padding): Value {
    match p
    case Uniform(v) => Int(v)
    case Sides(box) => BoxValue(box)
  }

  /** Whether the block has a `style` property at all (the spacer has none). */
  predicate HasStyle(b: EmailBlock) {
    b.Row? || (b.Content? && !b.block.Spacer? && !b.block.Unrecognized?)
  }

  /** The value of style property `k` of `b`. */
  function StyleField(b: EmailBlock, k: StyleKey): Value {
    match b
    case Row(_, _, s) =>
      if k == BackgroundColorKey then Str(s.backgroundColor) else if k == PaddingKey then Int(s.padding) else Absent
    case Content(c) =>
      match c
      case Text(_, _, s) => TextStyleField(s, k)
      case Image(_, _, _, _, s) => ImageStyleField(s, k)
      case Button(_, _, _, s) => ButtonStyleField(s, k)
      case Spacer(_, _) => Absent
      case Divider(_, s) =>
        if k == ColorKey then Str(s.color)
        else if k == ThicknessKey then Int(s.thickness)
        else if k == PaddingKey then Int(s.padding)
        else Absent
      case Unrecognized(_, _) => Absent
  }

  function TextStyleField(s: TextStyle, k: StyleKey): Value {
    match k
    case FontSizeKey => Int(s.fontSize)
    case FontWeightKey => Weight(s.fontWeight)
    case FontFamilyKey => Str(s.fontFamily)
    case TextAlignKey => Align(s.textAlign)
    case ColorKey => Str(s.color)
    case BackgroundColorKey => Str(s.backgroundColor)
    case PaddingKey => PaddingValue(s.padding)
    case LineHeightKey => Real(s.lineHeight)
    case _ => Absent
  }

  function ImageStyleField(s: ImageStyle, k: StyleKey): Value {
    match k
    case WidthKey => Str(s.width)
    case ImageHeightKey => Str(s.height)
    case TextAlignKey => Align(s.textAlign)
    case PaddingKey => Int(s.padding)
    case _ => Absent
  }

  function ButtonStyleField(s: ButtonStyle, k: StyleKey): Value {
    match k
    case BackgroundColorKey => Str(s.backgroundColor)
    case ColorKey => Str(s.color)
    case PaddingKey => Int(s.padding)
    case BorderRadiusKey => Int(s.borderRadius)
    case TextAlignKey => Align(s.textAlign)
    case FontSizeKey => Int(s.fontSize)
    case FontWeightKey => Weight(s.fontWeight)
    case _ => Absent
  }

  /** The value style patch `s` gives property `k`, `Absent` if it does not name it. */
  function ProposedStyle(s: StylePatch, k: StyleKey): Value {
    match k
    case FontSizeKey => if s.fontSize.Some? then Int(s.fontSize.value) else Absent
    case FontWeightKey => if s.fontWeight.Some? then Weight(s.fontWeight.value) else Absent
    case FontFamilyKey => StrOf(s.fontFamily)
    case TextAlignKey => if s.textAlign.Some? then Align(s.textAlign.value) else Absent
    case ColorKey => StrOf(s.color)
    case BackgroundColorKey => StrOf(s.backgroundColor)
    case PaddingKey => if s.padding.Some? then Int(s.padding.value) else Absent
    case LineHeightKey => if s.lineHeight.Some? then Real(s.lineHeight.value) else Absent
    case WidthKey => StrOf(s.width)
    case ImageHeightKey => StrOf(s.height)
    case BorderRadiusKey => if s.borderRadius.Some? then Int(s.borderRadius.value) else Absent
    case ThicknessKey => if s.thickness.Some? then Int(s.thickness.value) else Absent
  }

  /** Whether the style of `b` declares property `k`. */
  predicate DeclaresStyle(b: EmailBlock, k: StyleKey) {
    StyleField(b, k) != Absent
  }

  /** Two blocks that agree on every observation (and, for rows, on their columns). */
  predicate SameObservations(b1: EmailBlock, b2: EmailBlock) {
    && BlockId(b1) == BlockId(b2) && BlockKind(b1) == BlockKind(b2)
    && b1.Row? == b2.Row?
    && (b1.Content? ==> b1.block.Unrecognized? == b2.block.Unrecognized?)
    && (b1.Row? ==> b1.columns == b2.columns)
    && (forall k :: Field(b1, k) == Field(b2, k))
    && (forall k :: StyleField(b1, k) == StyleField(b2, k))
  }

  /** `{ ...b, ...p }`, the merge of `updateBlock`. */
  function Merge(b: EmailBlock, p: Patch): (r: EmailBlock)
    ensures BlockId(r) == BlockId(b) && BlockKind(r) == BlockKind(b)
    ensures r.Row? == b.Row? && (b.Row? ==> r == b)
    ensures b.Content? ==> r.block.Unrecognized? == b.block.Unrecognized?
    ensures forall k :: Field(r, k) == if Declares(b, k) && Proposed(p, k) != Absent then Proposed(p, k) else Field(b, k)
    ensures forall k :: StyleField(r, k) == StyleField(b, k)
  {
    match b
    case Row(_, _, _) => b
    case Content(c) =>
      Content(
        match c
        case Text(id, content, s) => Text(id, p.content.GetOr(content), s)
        case Image(id, src, alt, link, s) =>
          Image(id, p.src.GetOr(src), p.alt.GetOr(alt), if p.href.Some? then p.href else link, s)
        case Button(id, text, href, s) => Button(id, p.text.GetOr(text), p.href.GetOr(href), s)
        case Spacer(id, height) => Spacer(id, p.height.GetOr(height))
        case Divider(_, _) => c
        case Unrecognized(_, _) => c)
  }

  /** `{ ...b, style: { ...b.style, ...s } }` for a block that has a style; no change otherwise. */
  function MergeStyle(b: EmailBlock, s: StylePatch): (r: EmailBlock)
    ensures BlockId(r) == BlockId(b) && BlockKind(r) == BlockKind(b)
    ensures r.Row? == b.Row? && (b.Row? ==> r.columns == b.columns)
    ensures b.Content? ==> r.block.Unrecognized? == b.block.Unrecognized?
    ensures forall k :: Field(r, k) == Field(b, k)
    ensures forall k :: StyleField(r, k) == if DeclaresStyle(b, k) && ProposedStyle(s, k) != Absent then ProposedStyle(s, k) else StyleField(b, k)
    ensures !HasStyle(b) ==> r == b
  {
    match b
    case Row(id, columns, st) =>
      Row(id, columns, RowStyle(s.backgroundColor.GetOr(st.backgroundColor), s.padding.GetOr(st.padding)))
    case Content(c) =>
      Content(
        match c
        case Text(id, content, st) =>
          Text(id, content, TextStyle(
            s.fontSize.GetOr(st.fontSize), s.fontWeight.GetOr(st.fontWeight), s.fontFamily.GetOr(st.fontFamily),
            s.textAlign.GetOr(st.textAlign), s.color.GetOr(st.color), s.backgroundColor.GetOr(st.backgroundColor),
            if s.padding.Some? then Uniform(s.padding.value) else st.padding,
            s.lineHeight.GetOr(st.lineHeight)))
        case Image(id, src, alt, link, st) =>
          Image(id, src, alt, link, ImageStyle(
            s.width.GetOr(st.width), s.height.GetOr(st.height), s.textAlign.GetOr(st.textAlign), s.padding.GetOr(st.padding)))
        case Button(id, text, href, st) =>
          Button(id, text, href, ButtonStyle(
            s.backgroundColor.GetOr(st.backgroundColor), s.color.GetOr(st.color), s.padding.GetOr(st.padding),
            s.borderRadius.GetOr(st.borderRadius), s.textAlign.GetOr(st.textAlign), s.fontSize.GetOr(st.fontSize),
            s.fontWeight.GetOr(st.fontWeight)))
        case Spacer(_, _) => c
        case Divider(id, st) =>
          Divider(id, DividerStyle(s.color.GetOr(st.color), s.thickness.GetOr(st.thickness), s.padding.GetOr(st.padding)))
        case Unrecognized(_, _) => c)
  }

  // ---------------------------------------------------------------------
  // Properties of the merges
  // ---------------------------------------------------------------------

  /** The observations read the whole block: blocks that agree on all of them are equal. */
  lemma Extensionality(b1: EmailBlock, b2: EmailBlock)
    requires SameObservations(b1, b2)
    ensures b1 == b2
  {
    assert StyleField(b1, BackgroundColorKey) == StyleField(b2, BackgroundColorKey);
    assert StyleField(b1, PaddingKey) == StyleField(b2, PaddingKey);
    if b1.Content? {
      var c1, c2 := b1.block, b2.block;
      match c1
      case Text(_, _, _) => TextExtensionality(b1, b2);
      case Image(_, _, _, _, _) => ImageExtensionality(b1, b2);
      case Button(_, _, _, _) => ButtonExtensionality(b1, b2);
      case Spacer(_, _) =>
        assert Field(b1, HeightKey) == Field(b2, HeightKey);
      case Divider(_, _) =>
        assert StyleField(b1, ColorKey) == StyleField(b2, ColorKey);
        assert StyleField(b1, ThicknessKey) == StyleField(b2, ThicknessKey);
      case Unrecognized(_, _) =>
    }
  }

  lemma TextExtensionality(b1: EmailBlock, b2: EmailBlock)
    requires SameObservations(b1, b2) && b1.Content? && b1.block.Text?
    ensures b1 == b2
  {
    assert Field(b1, ContentKey) == Field(b2, ContentKey);
    var s1, s2 := b1.block.textStyle, b2.block.textStyle;
    forall k ensures TextStyleField(s1, k) == TextStyleField(s2, k) {
      assert StyleField(b1, k) == StyleField(b2, k);
    }
    assert TextStyleField(s1, FontSizeKey) == TextStyleField(s2, FontSizeKey);
    assert TextStyleField(s1, FontWeightKey) == TextStyleField(s2, FontWeightKey);
    assert TextStyleField(s1, FontFamilyKey) == TextStyleField(s2, FontFamilyKey);
    assert TextStyleField(s1, TextAlignKey) == TextStyleField(s2, TextAlignKey);
    assert TextStyleField(s1, ColorKey) == TextStyleField(s2, ColorKey);
    assert TextStyleField(s1, BackgroundColorKey) == TextStyleField(s2, BackgroundColorKey);
    assert TextStyleField(s1, LineHeightKey) == TextStyleField(s2, LineHeightKey);
    assert PaddingValue(s1.padding) == PaddingValue(s2.padding) by {
      assert TextStyleField(s1, PaddingKey) == TextStyleField(s2, PaddingKey);
    }
  }

  lemma ImageExtensionality(b1: EmailBlock, b2: EmailBlock)
    requires SameObservations(b1, b2) && b1.Content? && b1.block.Image?
    ensures b1 == b2
  {
    assert Field(b1, SrcKey) == Field(b2, SrcKey);
    assert Field(b1, AltKey) == Field(b2, AltKey);
    assert StrOf(b1.block.link) == StrOf(b2.block.link) by {
      assert Field(b1, HrefKey) == Field(b2, HrefKey);
    }
    var s1, s2 := b1.block.imageStyle, b2.block.imageStyle;
    forall k ensures ImageStyleField(s1, k) == ImageStyleField(s2, k) {
      assert StyleField(b1, k) == StyleField(b2, k);
    }
    assert ImageStyleField(s1, WidthKey) == ImageStyleField(s2, WidthKey);
    assert ImageStyleField(s1, ImageHeightKey) == ImageStyleField(s2, ImageHeightKey);
    assert ImageStyleField(s1, TextAlignKey) == ImageStyleField(s2, TextAlignKey);
    assert ImageStyleField(s1, PaddingKey) == ImageStyleField(s2, PaddingKey);
  }

  lemma ButtonExtensionality(b1: EmailBlock, b2: EmailBlock)
    requires SameObservations(b1, b2) && b1.Content? && b1.block.Button?
    ensures b1 == b2
  {
    assert Field(b1, TextKey) == Field(b2, TextKey);
    assert Field(b1, HrefKey) == Field(b2, HrefKey);
    var s1, s2 := b1.block.buttonStyle, b2.block.buttonStyle;
    forall k ensures ButtonStyleField(s1, k) == ButtonStyleField(s2, k) {
      assert StyleField(b1, k) == StyleField(b2, k);
    }
    assert ButtonStyleField(s1, BackgroundColorKey) == ButtonStyleField(s2, BackgroundColorKey);
    assert ButtonStyleField(s1, ColorKey) == ButtonStyleField(s2, ColorKey);
    assert ButtonStyleField(s1, PaddingKey) == ButtonStyleField(s2, PaddingKey);
    assert ButtonStyleField(s1, BorderRadiusKey) == ButtonStyleField(s2, BorderRadiusKey);
    assert ButtonStyleField(s1, TextAlignKey) == ButtonStyleField(s2, TextAlignKey);
    assert ButtonStyleField(s1, FontSizeKey) == ButtonStyleField(s2, FontSizeKey);
    assert ButtonStyleField(s1, FontWeightKey) == ButtonStyleField(s2, FontWeightKey);
  }

  /** An empty patch changes nothing (so a no-op update keeps the document as it was). */
  lemma MergeEmpty(b: EmailBlock)
    ensures Merge(b, EmptyPatch) == b
    ensures MergeStyle(b, EmptyStylePatch) == b
  {
    Extensionality(Merge(b, EmptyPatch), b);
    Extensionality(MergeStyle(b, EmptyStylePatch), b);
  }

  /** Applying the same patch twice is the same as applying it once. */
  lemma MergeIdempotent(b: EmailBlock, p: Patch, s: StylePatch)
    ensures Merge(Merge(b, p), p) == Merge(b, p)
    ensures MergeStyle(MergeStyle(b, s), s) == MergeStyle(b, s)
  {
    var once, twice := Merge(b, p), Merge(Merge(b, p), p);
    assert forall k :: Declares(once, k) == Declares(b, k) by {
      forall k ensures Declares(once, k) == Declares(b, k) {
      }
    }
    Extensionality(twice, once);
    var sOnce, sTwice := MergeStyle(b, s), MergeStyle(MergeStyle(b, s), s);
    Extensionality(sTwice, sOnce);
  }

  /** Patches that name disjoint properties can be applied in either order. */
  lemma DisjointPatchesCommute(b: EmailBlock, p: Patch, q: Patch)
    requires forall k :: Proposed(p, k) == Absent || Proposed(q, k) == Absent
    ensures Merge(Merge(b, p), q) == Merge(Merge(b, q), p)
  {
    var bp, bq := Merge(b, p), Merge(b, q);
    assert forall k :: Declares(bp, k) == Declares(b, k) && Declares(bq, k) == Declares(b, k) by {
      forall k ensures Declares(bp, k) == Declares(b, k) && Declares(bq, k) == Declares(b, k) {
      }
    }
    Extensionality(Merge(bp, q), Merge(bq, p));
  }

  /** A content edit and a style edit are independent of each other. */
  lemma ContentAndStyleEditsCommute(b: EmailBlock, p: Patch, s: StylePatch)
    ensures Merge(MergeStyle(b, s), p) == MergeStyle(Merge(b, p), s)
  {
    var bs, bp := MergeStyle(b, s), Merge(b, p);
    assert forall k :: Declares(bs, k) == Declares(b, k) by {
      forall k ensures Declares(bs, k) == Declares(b, k) {
      }
    }
    assert forall k :: DeclaresStyle(bp, k) == DeclaresStyle(b, k);
    Extensionality(Merge(bs, p), MergeStyle(bp, s));
  }

  /**
   * The padding control writes a plain number, so a text block's four-sided
   * padding becomes uniform as soon as it is edited.
   */
  lemma PaddingEditCollapsesBox(b: EmailBlock, v: int)
    requires b.Content? && b.block.Text? && b.block.textStyle.padding.Sides?
    ensures var r := MergeStyle(b, EmptyStylePatch.(padding := Some(v)));
      r.Content? && r.block.Text? && r.block.textStyle.padding == Uniform(v)
  {
  }
}
