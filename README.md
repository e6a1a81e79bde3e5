# Email block editor — a Dafny model

This project models the block layer of a drag-and-drop email editor. An email is a list of
blocks. A block is either a **row** of columns or a standalone **content block**:
text, image, button, spacer or divider. Each column holds content blocks only, so rows
never nest. The model covers these parts:

- **Block types and factories** (`BlockTypes`): the block data, the five content factories
  with their default styles and `<prefix>-<timestamp>` ids, and `createRowBlock`. That
  function builds `n` columns of width `floor(100 / n)` with ids `col-<t>-<i>`, under a row
  `row-<t>`.
- **Renderer** (`BlockRenderer`, over the markup tree of `Html`): a row is one table whose
  single row has one cell per column. A column cell holds a nested table, with one row per
  content block or a placeholder when it is empty. Each content kind renders through one
  per-kind cell routine.
- **Block palette** (`BlockSidebar`): the six layout buttons and five content buttons, and
  `createBlock`. An unknown key throws "Unknown block type".
- **Add-content dialog** (`ContentBlockModal`): a form whose values are spread over the
  factory block of the chosen kind. The form resets after every add.
- **Padding control** (`PaddingControls`): it normalises a number or four-sided padding to a
  box, keeps a linked flag, and emits boxes on edits and on linking.
- **Property editor** (`BlockEditor`, with the merges in `BlockSpread`): the editor keeps a
  local copy of the selected block, re-synchronises it when the selection changes, and
  applies content and style edits as shallow object merges.

How the model represents the source:

- `Date.now()` is a parameter. A factory takes the timestamp `now`. `createRowBlock` reads
  the clock once per column and once more for the row, so it takes `clock`, where
  `clock(k)` is the k-th reading.
- JavaScript's `parseInt` is a decimal parse that returns `None` for `NaN`.
- `x || fallback` is written out: both `NaN` and `0` give the fallback.
- Callbacks such as `onAdd`, `onChange` and `onUpdate` are modelled as method results.
- Components whose state changes are classes whose fields are their `useState` cells.
- A style property that JSX sets to `undefined` is absent from the node's style map.
  React drops such properties.
- The code interpolates a text block's padding as `${padding}px`. When that padding is a
  four-sided box, it renders the literal token `[object Object]px`, and the model does the
  same.
- An object spread is specified through observation functions. `Field` and `StyleField`
  read one named property of a block, and `BlockSpread.Extensionality` proves that together
  they determine the block.

## Model

| member | source | states |
|---|---|---|
| Strings.NatToString | components/drag-drop-editor/block-types.ts:105 | a timestamp prints as a non-empty string of decimal digits |
| Strings.DigitsValueOfNatToString | components/drag-drop-editor/block-types.ts:105 | reading the printed digits back gives the number printed |
| Strings.NatToStringInjective | components/drag-drop-editor/block-types.ts:105 | two numbers print alike iff they are equal |
| Strings.ParseInt | components/drag-drop-editor/padding-controls.tsx:65 | `parseInt` is NaN exactly when no digit follows the skipped white space and optional sign |
| Strings.ParseIntOr | components/drag-drop-editor/content-block-modal.tsx:48 | `parseInt(s) \|\| d` is the parsed number when it is a non-zero number, and `d` when it is NaN or 0 |
| Strings.ParseIntRoundTrip | components/drag-drop-editor/content-block-modal.tsx:48 | a number printed in decimal parses back to itself |
| Strings.ParseIntOfDigits | components/drag-drop-editor/padding-controls.tsx:65 | a string of digits parses to its value, and with a leading minus sign to the negated value |
| Strings.LeadingSpaceSkipped | components/drag-drop-editor/padding-controls.tsx:65 | any one leading white-space or line-terminator character, the ideographic space and line separator included, is skipped before a number |
| Strings.ParseIntEmpty | components/drag-drop-editor/padding-controls.tsx:65 | an empty input parses to NaN, so `\|\| 20` gives 20 |
| BlockTypes.KindOf | components/drag-drop-editor/block-types.ts:29-87 | a block's type tag is one of the five content kinds iff the block is a known kind, and never "row" or "column", so a column cannot hold a row |
| BlockTypes.CreateTextBlock | components/drag-drop-editor/block-types.ts:128-144 | kind "text"; id `text-<now>`; content "Enter your text here..."; font size 16; padding 10; transparent background |
| BlockTypes.CreateImageBlock | components/drag-drop-editor/block-types.ts:146-159 | kind "image"; id `img-<now>`; no link; a non-empty placeholder source |
| BlockTypes.CreateButtonBlock | components/drag-drop-editor/block-types.ts:161-177 | kind "button"; id `btn-<now>`; padding 12; radius 6 |
| BlockTypes.CreateSpacerBlock | components/drag-drop-editor/block-types.ts:179-185 | kind "spacer"; id `spacer-<now>`; height 20 |
| BlockTypes.CreateDividerBlock | components/drag-drop-editor/block-types.ts:187-197 | kind "divider"; id `divider-<now>`; style {#e5e7eb, thickness 1, padding 20} |
| BlockTypes.NewContentBlock | components/drag-drop-editor/block-sidebar.tsx:43-53 | the factory chosen for a kind yields a block of that kind with that kind's id prefix |
| BlockTypes.CreateRowBlock | components/drag-drop-editor/block-types.ts:99-126 | the loop builds exactly the row `NewRow(n, clock)`: columns 0..n-1 in order, each from its own clock reading |
| BlockTypes.NewRowShape | components/drag-drop-editor/block-types.ts:103-124 | a row for n ≥ 1 has n columns, each of width floor(100/n), empty, with style {transparent, 10, top}; the row style is {transparent, 0} |
| BlockTypes.NewRowWidths | components/drag-drop-editor/block-types.ts:100-107 | the widths sum to 100 − (100 mod n): at most 100 and more than 100 − n |
| BlockTypes.ThreeColumnsLeaveOnePercent | components/drag-drop-editor/block-types.ts:100 | three columns are 33% each and sum to 99 |
| BlockTypes.ColumnIdInjective | components/drag-drop-editor/block-types.ts:105 | `col-<t>-<i>` ids are equal iff both the timestamps and the indices are |
| BlockTypes.NewRowIdsDistinct | components/drag-drop-editor/block-types.ts:103-118 | for any clock readings, the column ids of a new row are pairwise distinct and differ from the row id |
| BlockTypes.ContentIdsDistinct | components/drag-drop-editor/block-types.ts:128-197 | two factory ids are equal iff they come from the same kind and the same timestamp |
| BlockRenderer.Background | components/drag-drop-editor/block-renderer.tsx:27-28 | a background style is emitted iff the colour is not "transparent", and then holds that colour |
| BlockRenderer.TextCell | components/drag-drop-editor/block-renderer.tsx:19-35 | a one-child cell carrying font size in px, font weight, text align, colour, unitless line height, padding, and the background unless transparent, but no font family; the content is the inner HTML of a div |
| BlockRenderer.ImageCell | components/drag-drop-editor/block-renderer.tsx:37-71 | the cell carries text align and padding; the image is wrapped in `<a href>` iff the link is non-empty; an empty source becomes `/placeholder.svg`; alt is kept; the `img` has the block width and height, max width 100% and display block |
| BlockRenderer.ButtonCell | components/drag-drop-editor/block-renderer.tsx:73-106 | the outer cell carries text align and padding around a nested one-cell table; that cell carries background and border radius px; the anchor has href, display block, no text decoration, colour, font size px, font weight, padding `<p>px 24px` and the text |
| BlockRenderer.SpacerCell | components/drag-drop-editor/block-renderer.tsx:108-113 | height and line height are both the spacer height in px, font size 1px, a no-break space inside |
| BlockRenderer.DividerCell | components/drag-drop-editor/block-renderer.tsx:115-132 | the outer cell has the divider padding around a full-width table; its one line cell has `border-top: <thickness>px solid <color>`, 1px font size and line height, and holds only a no-break space, so it is one pixel tall plus the border |
| BlockRenderer.RenderContentBlock | components/drag-drop-editor/block-renderer.tsx:17-137 | each of the five kinds renders through its own cell routine (text, image, button, spacer, divider), and the cell is the "Unknown block type" cell iff the block's type tag is none of the five content kinds |
| BlockRenderer.RenderColumn | components/drag-drop-editor/block-renderer.tsx:139-175 | the cell has width `<w>%`, padding px, vertical align and a background unless transparent; an empty column holds exactly one placeholder row, otherwise one row per block, in order |
| BlockRenderer.RenderBlock | components/drag-drop-editor/block-renderer.tsx:177-206 | every top-level block is a full-width table; a row's table has one `tr` holding exactly one cell per column, in column order, and the row background unless transparent; a standalone block's table has no style and one cell from the same per-kind routine |
| BlockRenderer.NewRowRendersPlaceholders | components/drag-drop-editor/block-renderer.tsx:152-165 | a freshly created n-column row renders n cells of width floor(100/n)%, each holding only the placeholder |
| BlockRenderer.ThreeColumnsWithGreeting | components/drag-drop-editor/block-renderer.tsx:139-195 | a 3-column row whose first column holds the text "Hello" renders three 33% cells: the first holds one row showing "Hello", the other two the placeholder |
| BlockRenderer.RowPaddingNotRendered | components/drag-drop-editor/block-renderer.tsx:181-190 | a row's own padding has no effect on its markup |
| BlockRenderer.IdsNotRendered | components/drag-drop-editor/block-renderer.tsx:17-137 | a content cell does not depend on the block's id |
| BlockRenderer.StandaloneSharesCellRoutine | components/drag-drop-editor/block-renderer.tsx:196-205 | a block renders the same cell standalone as it does in row k of a column |
| BlockSidebar.CreateBlock | components/drag-drop-editor/block-sidebar.tsx:38-57 | a `row-` key with a truthy count gives that row; a content kind gives its factory block; anything else fails with "Unknown block type: <key>" |
| BlockSidebar.LayoutCounts | components/drag-drop-editor/block-sidebar.tsx:21-28 | the layout palette has six entries whose column counts are 1 to 6, in order |
| BlockSidebar.LayoutButtonsBuildRows | components/drag-drop-editor/block-sidebar.tsx:39-41 | every layout button builds a row with its column count |
| BlockSidebar.ContentButtonsBuildKinds | components/drag-drop-editor/block-sidebar.tsx:43-53 | every content button builds a standalone block of its own kind |
| BlockSidebar.RowKeyNeedsCount | components/drag-drop-editor/block-sidebar.tsx:39-55 | any `row-` key without a count, or with count 0, throws "Unknown block type: <key>", since no content kind starts with "row-" |
| BlockSpread.Merge | components/drag-drop-editor/block-editor.tsx:37-41 | id, kind and style are kept; each property the kind declares takes the patch value when given and keeps its old value otherwise |
| BlockSpread.MergeStyle | components/drag-drop-editor/block-editor.tsx:43-49 | content properties are kept; each declared style property takes the patch value when given and keeps its old value otherwise; a block without style is unchanged |
| BlockSpread.Extensionality | components/drag-drop-editor/block-editor.tsx:37-49 | blocks that agree on id, kind, columns and every observed property are equal, so the two merge contracts determine the result |
| BlockSpread.MergeEmpty | components/drag-drop-editor/block-editor.tsx:37-49 | an empty content or style patch leaves the block unchanged |
| BlockSpread.MergeIdempotent | components/drag-drop-editor/block-editor.tsx:37-49 | applying the same content or style patch twice equals applying it once |
| BlockSpread.DisjointPatchesCommute | components/drag-drop-editor/block-editor.tsx:37-41 | patches that name disjoint properties commute |
| BlockSpread.ContentAndStyleEditsCommute | components/drag-drop-editor/block-editor.tsx:37-49 | a content edit and a style edit commute |
| BlockSpread.PaddingEditCollapsesBox | components/drag-drop-editor/block-editor.tsx:139-140 | a padding edit turns a text block's four-sided padding into a uniform number |
| ContentBlockModal.AddedBlock | components/drag-drop-editor/content-block-modal.tsx:34-55 | for each of the five kinds the block is the factory block of that kind with the form's fields spread over it; any other selection gives the default text block |
| ContentBlockModal.Modal.constructor | components/drag-drop-editor/content-block-modal.tsx:26-32 | the dialog opens with kind "text", "Sample text content", empty URL and alt, "Click me", empty button URL and "20" |
| ContentBlockModal.Modal.Edit | components/drag-drop-editor/content-block-modal.tsx:82-160 | an input's change event sets that input and no other |
| ContentBlockModal.Modal.ResetForm | components/drag-drop-editor/content-block-modal.tsx:62-70 | every input returns to its initial value |
| ContentBlockModal.Modal.HandleAdd | components/drag-drop-editor/content-block-modal.tsx:34-60 | hands over the block built from the form as it was, then resets the form |
| ContentBlockModal.AddedKeepsFactoryIdAndStyle | components/drag-drop-editor/content-block-modal.tsx:37-51 | the added block has the factory's id and every style property of the factory's block |
| ContentBlockModal.DividerIgnoresForm | components/drag-drop-editor/content-block-modal.tsx:50-51 | a divider is exactly the factory's block |
| ContentBlockModal.SpacerHeightFallback | components/drag-drop-editor/content-block-modal.tsx:48 | the spacer height is the parsed input when that is a non-zero number, and 20 otherwise, so it is never 0 |
| ContentBlockModal.SpacerHeightTyped | components/drag-drop-editor/content-block-modal.tsx:48 | a non-zero height typed in decimal becomes the spacer's height |
| ContentBlockModal.OnlyChosenInputsMatter | components/drag-drop-editor/content-block-modal.tsx:37-55 | forms that agree on the chosen kind and that kind's inputs add the same block |
| ContentBlockModal.InitialFormAddsSampleText | components/drag-drop-editor/content-block-modal.tsx:26-39 | adding from the initial form gives a text block with "Sample text content" and the default text style |
| PaddingControls.UniformBox | components/drag-drop-editor/padding-controls.tsx:30 | all four sides equal the value |
| PaddingControls.WithSide | components/drag-drop-editor/padding-controls.tsx:32 | the named side takes the value and the other three sides are unchanged |
| PaddingControls.Normalize | components/drag-drop-editor/padding-controls.tsx:24-26 | a number v becomes {v, v, v, v}; a box passes through unchanged |
| PaddingControls.SideInput | components/drag-drop-editor/padding-controls.tsx:65 | unparseable input counts as 0; otherwise the parsed number |
| PaddingControls.PaddingControl.constructor | components/drag-drop-editor/padding-controls.tsx:22 | the control starts linked iff the value is a number |
| PaddingControls.PaddingControl.Emitted | components/drag-drop-editor/padding-controls.tsx:28-34 | linked: all four sides become the new value; unlinked: the shown box with only the edited side replaced |
| PaddingControls.PaddingControl.HandleChange | components/drag-drop-editor/padding-controls.tsx:28-34 | a side's change event emits the box `Emitted` describes, for the parsed input |
| PaddingControls.PaddingControl.ToggleLinked | components/drag-drop-editor/padding-controls.tsx:36-44 | the flag flips; turning it on emits the uniform box of the shown top side, and turning it off emits nothing |
| PaddingControls.PaddingControl.ReceiveValue | components/drag-drop-editor/padding-controls.tsx:21-22 | a new value from the parent leaves the linked flag as it was initialised |
| PaddingControls.RewriteSideIsNoOp | components/drag-drop-editor/padding-controls.tsx:32 | writing back a side's current value emits the shown box unchanged |
| PaddingControls.LastEditWins | components/drag-drop-editor/padding-controls.tsx:32 | of two edits to the same side, the later one wins |
| PaddingControls.EditsCommute | components/drag-drop-editor/padding-controls.tsx:32 | edits to different sides commute |
| PaddingControls.LinkThenEdit | components/drag-drop-editor/padding-controls.tsx:28-44 | linking an unlinked control emits the uniform box of the shown top side, and a following edit of any side emits the uniform box of the new value, whatever box was shown |
| PaddingControls.UnlinkThenEdit | components/drag-drop-editor/padding-controls.tsx:28-44 | unlinking a control that shows a number v emits nothing, and a following edit of side s emits a box with s set to the new value and the other three sides v |
| PaddingControls.SideInputValues | components/drag-drop-editor/padding-controls.tsx:65 | empty input counts as 0, and a typed number counts as itself |
| PaddingControls.NonNumberReadsZero | components/drag-drop-editor/padding-controls.tsx:65 | input starting with anything other than space, a sign or a digit counts as 0 |
| BlockEditor.ShownPadding | components/drag-drop-editor/block-editor.tsx:139-146 | a numeric padding is shown as it is; any other padding, or none, is shown as 16 |
| BlockEditor.ShownColor | components/drag-drop-editor/block-editor.tsx:128-131 | "transparent" is shown as "#ffffff"; any other colour as itself |
| BlockEditor.Editor.constructor | components/drag-drop-editor/block-editor.tsx:21 | the local copy starts as the prop |
| BlockEditor.Editor.ReceiveProp | components/drag-drop-editor/block-editor.tsx:23-25 | when the prop changes, the local copy is replaced by it; otherwise the copy is kept |
| BlockEditor.Editor.UpdateBlock | components/drag-drop-editor/block-editor.tsx:37-41 | the local copy becomes the merge, and exactly that block is reported |
| BlockEditor.Editor.UpdateStyle | components/drag-drop-editor/block-editor.tsx:43-49 | a block with a style gets the style merge, which is stored and reported; a block without style is left unchanged and nothing is reported |
| BlockEditor.Editor.SlidePadding | components/drag-drop-editor/block-editor.tsx:138-140 | moving the slider is a style update with a plain-number padding |
| BlockEditor.SlideThenShow | components/drag-drop-editor/block-editor.tsx:138-146 | after sliding to v, the stored padding is v and the slider shows v |
| BlockEditor.SlideKeepsTheRest | components/drag-drop-editor/block-editor.tsx:43-48 | sliding changes no content property and no other style property |
| BlockEditor.BoxPaddingShownAsSixteen | components/drag-drop-editor/block-editor.tsx:139-146 | four-sided text padding is shown as 16 and becomes the uniform value once edited |
| BlockEditor.SpacerIgnoresStyle | components/drag-drop-editor/block-editor.tsx:44 | a style update leaves a spacer as it is |
| BlockEditor.PickerWhiteMatchesOmittedBackground | components/drag-drop-editor/block-editor.tsx:128-131 | the renderer omits a background iff it is "transparent"; only then does the picker show white instead of the stored value |

## Left out

- Selection chrome of the renderer is not modelled: the hover frame, the edit and delete buttons, `isSelected`, `onSelect`, `onEdit` and `onDelete`. It is presentation only.
- Icons, CSS class names and React `key` props are left out.
- `renderContentBlock`'s `inColumn` parameter is left out, because the function body never reads it.
- `onAddToColumn` is modelled as the flag `canAddToColumn`, which decides whether the "Add Content" button appears. The column id passed to the callback is not modelled.
- Strings.ParseInt reads decimal input only. It does not model the `0x` hexadecimal prefix or loss of precision above 2^53, because every input it reads comes from a number field.
- JavaScript numbers are modelled as unbounded integers. Line height is a `real`. CSS lengths and colours are opaque strings.
- Slider ranges and steps (for example padding 0–64 in steps of 4) are not modelled. The UI library enforces them, not this code.
- BlockSpread.Merge applies only the properties the block's kind declares. In JavaScript, `{ ...block, ...updates }` also copies an undeclared property, such as `content` onto an image, which no code reads. The editor never patches `id` or `type`.
- BlockSpread.MergeStyle takes typed values for the alignment and weight selects. The source passes the selected strings through unchecked. Like Merge, it applies only the style properties the block's kind declares; `{ ...localBlock.style, ...styleUpdates }` would also copy an undeclared one, but no editor control sends one.
- The image upload path is left out: a `FileReader` produces a data URL that becomes `src`. It is browser file I/O. Typing a URL is the same `src` update.
- The rich-text editor is left out. It works through `contentEditable` and `execCommand`, and reaches the model only as a `content` update or a font-family style update.
- BlockEditor.Editor.ReceiveProp compares the new prop by value. React compares effect dependencies by reference, so a new but equal block object also resets the local copy in the source.
- BlockEditor.Editor.UpdateBlock requires a local block. Without one, the editor renders only "Select a block to edit its properties" and offers no control that could call it.
- The editor has no controls for rows: its switch has no `row` case. MergeStyle still covers a row's style, as the generic `updateStyle` would.
- Opening and closing the dialog are not modelled: `isOpen`, `onClose` and the dialog frame. `HandleAdd` returns the block instead of calling `onAdd` and `onClose`.
- ContentBlockModal.Modal.Edit accepts any string as the block type. The select offers only the five kinds. The fallback to a text block is modelled for the other strings.
- The padding control's layout is left out: one input when linked, four inputs in a grid when unlinked.
- The rest of the application is left out: the editor page that holds the document and its tree operations, drag-and-drop wrappers, server actions, page routing, and the code editor. None of them is part of this core.
- A block whose `type` is none of the declared kinds is modelled as `Unrecognized` with its tag. TypeScript's union does not admit it, but stored JSON can carry one and the renderer's `default` branch handles it. Its tag can never be one of the seven declared kinds.
- The document-level `EmailContent` style is declared but used by no modelled operation.
