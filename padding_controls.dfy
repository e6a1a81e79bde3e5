/**
 * The four-sided padding control: it shows a padding that is either one
 * number or a box of four sides, keeps a "linked" flag, and emits a new box
 * whenever a side is edited or the flag is switched on. The `onChange`
 * callback is modelled as the box a method returns.
 */
module PaddingControls {
  import opened Wrappers
  import opened Strings
  import opened BlockTypes

  datatype Side = Top | Right | Bottom | Left

  /** The pixels of side `s` of `box`. */
  function SideOf(box: Box, s: Side): int {
    match s
    case Top => box.top
    case Right => box.right
    case Bottom => box.bottom
    case Left => box.left
  }

  /** The box with all four sides equal to `n`. */
  function UniformBox(n: int): (box: Box)
    ensures forall s :: SideOf(box, s) == n
  {
    Box(n, n, n, n)
  }

  /** `box` with side `s` replaced by `n`: `{ ...box, [s]: n }`. */
  function WithSide(box: Box, s: Side, n: int): (r: Box)
    ensures SideOf(r, s) == n
    ensures forall t :: t != s ==> SideOf(r, t) == SideOf(box, t)
  {
    match s
    case Top => box.(top := n)
    case Right => box.(right := n)
    case Bottom => box.(bottom := n)
    case Left => box.(left := n)
  }

  /** The box the control shows: a number spread to all four sides, a box as it is. */
  function Normalize(v: Padding): (box: Box)
    ensures v.Uniform? ==> forall s :: SideOf(box, s) == v.pixels
    ensures v.Sides? ==> box == v.box
  {
    match v
    case Uniform(n) => UniformBox(n)
    case Sides(b) => b
  }

  /** The value a side input's text stands for: the parsed number, or 0 when it is not one. */
  function SideInput(raw: string): (n: int)
    ensures ParseInt(raw).None? ==> n == 0
    ensures ParseInt(raw).Some? ==> n == ParseInt(raw).value
  {
    ParseIntOr(raw, 0)
  }

  /** The control's state: the padding it was last given and whether the sides are linked. */
  class PaddingControl {
    var value: Padding
    var isLinked: bool

    /** The control starts linked exactly when the padding it is given is a single number. */
    constructor (v: Padding)
      ensures value == v
      ensures isLinked <==> v.Uniform?
    {
      value := v;
      isLinked := v.Uniform?;
    }

    /** The box the control shows. */
    function Shown(): Box
      reads this
    {
      Normalize(value)
    }

    /**
     * The box emitted when side `s` is set to `n`: all four sides `n` when
     * linked, otherwise the shown box with only side `s` replaced.
     */
    function Emitted(s: Side, n: int): (box: Box)
      reads this
      ensures isLinked ==> forall t :: SideOf(box, t) == n
      ensures !isLinked ==> SideOf(box, s) == n && forall t :: t != s ==> SideOf(box, t) == SideOf(Shown(), t)
    {
      if isLinked then UniformBox(n) else WithSide(Shown(), s, n)
    }

    /** A change event on the input of side `s`; the state is not touched. */
    method HandleChange(s: Side, raw: string) returns (box: Box)
      ensures box == Emitted(s, SideInput(raw))
    {
      box := Emitted(s, ParseIntOr(raw, 0));
    }

    /**
     * The link button: flips the flag; switching it on emits a uniform box
     * made from the shown top side, switching it off emits nothing.
     */
    method ToggleLinked() returns (emitted: Option<Box>)
      modifies this
      ensures isLinked == !old(isLinked) && value == old(value)
      ensures emitted.Some? <==> isLinked
      ensures isLinked ==> emitted == Some(UniformBox(old(Shown()).top))
    {
      var newLinked := !isLinked;
      isLinked := newLinked;
      if newLinked {
        var uniform := Normalize(value).top;
        emitted := Some(Box(uniform, uniform, uniform, uniform));
      } else {
        emitted := None;
      }
    }

    /** A new padding from the parent: the flag keeps the value it was initialised with. */
    method ReceiveValue(v: Padding)
      modifies this
      ensures value == v && isLinked == old(isLinked)
    {
      value := v;
    }
  }

  // ---------------------------------------------------------------------
  // Properties of the control
  // ---------------------------------------------------------------------

  /**
   * Linking an unlinked control and then editing any side: linking emits the
   * uniform box of the shown top side, and the edit emits the uniform box of
   * the new value, whatever four-sided box was shown before.
   */
  method LinkThenEdit(c: PaddingControl, s: Side, raw: string) returns (linked: Option<Box>, edited: Box)
    requires !c.isLinked
    modifies c
    ensures linked == Some(UniformBox(SideOf(Normalize(old(c.value)), Side.Top)))
    ensures edited == UniformBox(SideInput(raw))
    ensures c.isLinked && c.value == old(c.value)
  {
    linked := c.ToggleLinked();
    edited := c.HandleChange(s, raw);
  }

  /**
   * Unlinking a control that shows the number `v` and then editing side `s`:
   * unlinking emits nothing, and the edit emits a box whose side `s` is the
   * new value while the other three sides keep `v`.
   */
  method UnlinkThenEdit(c: PaddingControl, s: Side, raw: string) returns (unlinked: Option<Box>, edited: Box)
    requires c.isLinked && c.value.Uniform?
    modifies c
    ensures unlinked == None
    ensures SideOf(edited, s) == SideInput(raw)
    ensures forall t :: t != s ==> SideOf(edited, t) == old(c.value).pixels
    ensures !c.isLinked && c.value == old(c.value)
  {
    unlinked := c.ToggleLinked();
    edited := c.HandleChange(s, raw);
  }

  /** Writing back the value a side already has gives the shown box unchanged. */
  lemma RewriteSideIsNoOp(box: Box, s: Side)
    ensures WithSide(box, s, SideOf(box, s)) == box
  {
    match s
    case Top =>
    case Right =>
    case Bottom =>
    case Left =>
  }

  /** Two edits of the same side: the last one wins. */
  lemma LastEditWins(box: Box, s: Side, m: int, n: int)
    ensures WithSide(WithSide(box, s, m), s, n) == WithSide(box, s, n)
  {
  }

  /** Edits of different sides commute. */
  lemma EditsCommute(box: Box, s: Side, t: Side, m: int, n: int)
    requires s != t
    ensures WithSide(WithSide(box, s, m), t, n) == WithSide(WithSide(box, t, n), s, m)
  {
  }

  /** An empty input reads as 0; a typed number reads as itself. */
  lemma SideInputValues(n: nat)
    ensures SideInput("") == 0
    ensures SideInput(NatToString(n)) == n
  {
    ParseIntEmpty();
    ParseIntRoundTrip(n);
  }

  /** Input that starts with something other than space, a sign or a digit reads as 0. */
  lemma NonNumberReadsZero(raw: string)
    requires |raw| > 0 && !IsSpace(raw[0]) && !IsDigit(raw[0]) && raw[0] != '-' && raw[0] != '+'
    ensures SideInput(raw) == 0
  {
    assert TrimStart(raw) == raw;
    assert Unsigned(raw) == raw;
    assert DigitPrefix(raw) == [];
  }
}
