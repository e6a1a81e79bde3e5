/**
 * The "Add Content Block" dialog: a form of seven text inputs, the block it
 * builds from them when "Add Block" is pressed, and the reset that follows.
 * The dialog's `onAdd` callback is modelled as the block `HandleAdd` returns.
 */
module ContentBlockModal {
  import opened Wrappers
  import opened Strings
  import opened BlockTypes
  import opened BlockSpread

  /** The dialog's form state, every input kept as the string typed into it. */
  datatype FormState = FormState(
    blockType: string,
    textContent: string,
    imageUrl: string,
    imageAlt: string,
    buttonText: string,
    buttonUrl: string,
    spacerHeight: string)

  /** The state the dialog opens with and returns to after each add. */
  const InitialForm: FormState :=
    FormState("text", "Sample text content", "", "", "Click me", "", "20")

  /** The input an edit goes to. */
  datatype FormInput =
    | BlockTypeInput | TextContentInput | ImageUrlInput | ImageAltInput
    | ButtonTextInput | ButtonUrlInput | SpacerHeightInput

  /** `f` with input `i` set to `v` and every other input as it was. */
  function WithInput(f: FormState, i: FormInput, v: string): FormState {
    match i
    case BlockTypeInput => f.(blockType := v)
    case TextContentInput => f.(textContent := v)
    case ImageUrlInput => f.(imageUrl := v)
    case ImageAltInput => f.(imageAlt := v)
    case ButtonTextInput => f.(buttonText := v)
    case ButtonUrlInput => f.(buttonUrl := v)
    case SpacerHeightInput => f.(spacerHeight := v)
  }

  /** The spacer height the form yields: the number typed, or 20 when that is not a number or is 0. */
  function SpacerHeightOf(f: FormState): int {
    ParseIntOr(f.spacerHeight, 20)
  }

  /** The fields the form overrides on the factory block of its kind (none for a divider). */
  function FormPatch(f: FormState): Patch {
    match f.blockType
    case "text" => EmptyPatch.(content := Some(f.textContent))
    case "image" => EmptyPatch.(src := Some(f.imageUrl), alt := Some(f.imageAlt))
    case "button" => EmptyPatch.(text := Some(f.buttonText), href := Some(f.buttonUrl))
    case "spacer" => EmptyPatch.(height := Some(SpacerHeightOf(f)))
    case _ => EmptyPatch
  }

  /**
   * The block "Add Block" builds: the factory block of the chosen kind with
   * the form's fields spread over it; an unknown kind gives a default text block.
   */
  function AddedBlock(f: FormState, now: nat): (b: ContentBlock)
    ensures f.blockType in ContentKinds ==>
      KindOf(b) == f.blockType && Content(b) == Merge(Content(NewContentBlock(f.blockType, now)), FormPatch(f))
    ensures f.blockType !in ContentKinds ==> b == CreateTextBlock(now)
  {
    match f.blockType
    case "text" => var t := CreateTextBlock(now); assert t.Text?; t.(content := f.textContent)
    case "image" => var t := CreateImageBlock(now); assert t.Image?; t.(src := f.imageUrl, alt := f.imageAlt)
    case "button" => var t := CreateButtonBlock(now); assert t.Button?; t.(text := f.buttonText, href := f.buttonUrl)
    case "spacer" => var t := CreateSpacerBlock(now); assert t.Spacer?; t.(height := SpacerHeightOf(f))
    case "divider" => CreateDividerBlock(now)
    case _ => CreateTextBlock(now)
  }

  /** The dialog's state holder; each `useState` is a field. */
  class Modal {
    var blockType: string
    var textContent: string
    var imageUrl: string
    var imageAlt: string
    var buttonText: string
    var buttonUrl: string
    var spacerHeight: string

    function Form(): FormState
      reads this
    {
      FormState(blockType, textContent, imageUrl, imageAlt, buttonText, buttonUrl, spacerHeight)
    }

    constructor ()
      ensures Form() == InitialForm
    {
      blockType, textContent, imageUrl, imageAlt := "text", "Sample text content", "", "";
      buttonText, buttonUrl, spacerHeight := "Click me", "", "20";
    }

    /** A change event on one input (the kind selector or a field). */
    method Edit(i: FormInput, v: string)
      modifies this
      ensures Form() == WithInput(old(Form()), i, v)
    {
      match i
      case BlockTypeInput => blockType := v;
      case TextContentInput => textContent := v;
      case ImageUrlInput => imageUrl := v;
      case ImageAltInput => imageAlt := v;
      case ButtonTextInput => buttonText := v;
      case ButtonUrlInput => buttonUrl := v;
      case SpacerHeightInput => spacerHeight := v;
    }

    /** Restores every input to its initial value. */
    method ResetForm()
      modifies this
      ensures Form() == InitialForm
    {
      blockType := "text";
      textContent := "Sample text content";
      imageUrl := "";
      imageAlt := "";
      buttonText := "Click me";
      buttonUrl := "";
      spacerHeight := "20";
    }

    /** "Add Block": builds the block from the current form, hands it over and resets the form. */
    method HandleAdd(now: nat) returns (block: ContentBlock)
      modifies this
      ensures block == AddedBlock(old(Form()), now)
      ensures Form() == InitialForm
    {
      block := AddedBlock(Form(), now);
      ResetForm();
    }
  }

  // ---------------------------------------------------------------------
  // Properties of the dialog
  // ---------------------------------------------------------------------

  /** The added block keeps the factory's id and style: the form sets content fields only. */
  lemma AddedKeepsFactoryIdAndStyle(f: FormState, now: nat)
    requires f.blockType in ContentKinds
    ensures var b, made := Content(AddedBlock(f, now)), Content(NewContentBlock(f.blockType, now));
      BlockId(b) == BlockId(made) && forall k :: StyleField(b, k) == StyleField(made, k)
  {
  }

  /** A divider takes nothing from the form: it is exactly the factory's block. */
  lemma DividerIgnoresForm(f: FormState, now: nat)
    requires f.blockType == "divider"
    ensures AddedBlock(f, now) == CreateDividerBlock(now)
  {
    MergeEmpty(Content(CreateDividerBlock(now)));
    assert FormPatch(f) == EmptyPatch;
  }

  /**
   * The spacer's height is the number typed when it parses to a non-zero
   * value and 20 otherwise; in particular it is never 0.
   */
  lemma SpacerHeightFallback(f: FormState, now: nat)
    requires f.blockType == "spacer"
    ensures var b := AddedBlock(f, now);
      b.Spacer? && b.height != 0
      && (ParseInt(f.spacerHeight).Some? && ParseInt(f.spacerHeight).value != 0 ==> b.height == ParseInt(f.spacerHeight).value)
      && (ParseInt(f.spacerHeight).None? || ParseInt(f.spacerHeight).value == 0 ==> b.height == 20)
  {
  }

  /** A number typed as decimal digits is the height the spacer gets. */
  lemma SpacerHeightTyped(f: FormState, now: nat, h: nat)
    requires f.blockType == "spacer" && f.spacerHeight == NatToString(h) && h != 0
    ensures AddedBlock(f, now) == Spacer(IdFor("spacer-", now), h)
  {
    ParseIntRoundTrip(h);
  }

  /** The inputs of other kinds do not matter: forms that agree on the chosen kind's inputs add the same block. */
  lemma OnlyChosenInputsMatter(f1: FormState, f2: FormState, now: nat)
    requires f1.blockType == f2.blockType
    requires f1.blockType == "text" ==> f1.textContent == f2.textContent
    requires f1.blockType == "image" ==> f1.imageUrl == f2.imageUrl && f1.imageAlt == f2.imageAlt
    requires f1.blockType == "button" ==> f1.buttonText == f2.buttonText && f1.buttonUrl == f2.buttonUrl
    requires f1.blockType == "spacer" ==> SpacerHeightOf(f1) == SpacerHeightOf(f2)
    ensures AddedBlock(f1, now) == AddedBlock(f2, now)
  {
  }

  /** Pressing "Add Block" on a freshly opened or just-reset dialog adds the sample text block. */
  lemma InitialFormAddsSampleText(now: nat)
    ensures AddedBlock(InitialForm, now) ==
      Text(IdFor("text-", now), "Sample text content",
        TextStyle(16, Normal, "Arial", Left, "#000000", "transparent", Uniform(10), 1.5))
  {
  }
}
