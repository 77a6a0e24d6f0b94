/**
 * FloatingSecondaryButton: one secondary action button with an optional
 * tooltip bubble (`labelWrapperView`) shown on long press. Scales, alphas and
 * animations are kept as the values the animations target.
 */
module SecondaryButtons {
  import opened Optional

  /** The closure a button runs when tapped, by identity. */
  type ActionId = nat

  /** The tooltip text; its colours and font only style the label. */
  datatype Tooltip = Tooltip(text: string)

  /** FloatingSecondaryData: the image (by identity), an optional tooltip and an optional action. */
  datatype SecondaryData = SecondaryData(image: nat, tooltip: Option<Tooltip>, action: Option<ActionId>)

  /** The button's transform: identity, or scaled to 0.9 while pressed. */
  datatype Scale = Normal | Pressed

  /** An alpha value as an animation targets it: 0.0 or 1.0. */
  datatype Alpha = Transparent | Opaque

  /** The states UILongPressGestureRecognizer reports to its action. */
  datatype GestureState = Possible | Began | Changed | Ended | Cancelled | Failed

  /** The tooltip wrapper view: its `isHidden` flag and its target alpha. */
  datatype TooltipView = TooltipView(hidden: bool, alpha: Alpha)

  /** A tooltip that is on screen is fully opaque. */
  predicate ShownIsOpaque(t: TooltipView)
  {
    !t.hidden ==> t.alpha == Opaque
  }

  /**
   * The tooltip after `longTapped` handles gesture state `g`: a hidden tooltip
   * is un-hidden at alpha 0 and faded in to 1; then, if the press has ended,
   * it is faded to 0 and hidden again.
   */
  function LongPressed(t: TooltipView, g: GestureState): (r: TooltipView)
    ensures r.hidden <==> g == Ended
    ensures g == Ended ==> r.alpha == Transparent
    ensures g != Ended && !t.hidden ==> r == t
    ensures ShownIsOpaque(t) ==> ShownIsOpaque(r)
  {
    var shown := if t.hidden then TooltipView(false, Opaque) else t;
    if g == Ended then shown.(alpha := Transparent).(hidden := true) else shown
  }

  /** The tooltip after `longTapped` has handled each state of `gs` in turn. */
  function AfterGestures(t: TooltipView, gs: seq<GestureState>): TooltipView
    decreases |gs|
  {
    if gs == [] then t else AfterGestures(LongPressed(t, gs[0]), gs[1..])
  }

  /** However a long press went, once it reports `.ended` the tooltip is hidden at alpha 0. */
  lemma {:induction false} EndedPressHidesTooltip(t: TooltipView, gs: seq<GestureState>)
    requires gs != [] && gs[|gs| - 1] == Ended
    ensures AfterGestures(t, gs) == TooltipView(true, Transparent)
    decreases |gs|
  {
    if |gs| > 1 {
      EndedPressHidesTooltip(LongPressed(t, gs[0]), gs[1..]);
    }
  }

  /**
   * While a long press reports only states other than `.ended`, the tooltip is
   * on screen, and fully opaque unless it was already on screen and faded.
   * In particular `.cancelled` and `.failed` leave it showing.
   */
  lemma {:induction false} UnendedPressShowsTooltip(t: TooltipView, gs: seq<GestureState>)
    requires gs != [] && Ended !in gs
    ensures !AfterGestures(t, gs).hidden
    ensures ShownIsOpaque(t) ==> AfterGestures(t, gs).alpha == Opaque
    decreases |gs|
  {
    if |gs| > 1 {
      assert gs[0] in gs;
      assert forall g :: g in gs[1..] ==> g in gs;
      UnendedPressShowsTooltip(LongPressed(t, gs[0]), gs[1..]);
    }
  }

  class SecondaryButton {
    /** The stored data; `set(data:)` never assigns it, so it stays nil. */
    var data: Option<SecondaryData>
    /** Whether `labelWrapperView` exists (it is an implicitly unwrapped optional). */
    var hasWrapper: bool
    var tooltipHidden: bool
    var tooltipAlpha: Alpha
    /** Whether `button` exists. */
    var hasButton: bool
    var scale: Scale

    /** The tooltip wrapper view, if one was created. */
    function Wrapper(): Option<TooltipView>
      reads this
    {
      if hasWrapper then Some(TooltipView(tooltipHidden, tooltipAlpha)) else None
    }

    /** A fresh button: no data, no tooltip wrapper and no button subview yet. */
    constructor ()
      ensures data == None && Wrapper() == None && !hasButton && scale == Normal
    {
      data := None;
      hasWrapper := false;
      tooltipHidden := false;
      tooltipAlpha := Opaque;
      hasButton := false;
      scale := Normal;
    }

    /**
     * `set(data:)`, that is `createView(from:)`. With a tooltip it creates the
     * wrapper, hidden and at a new view's alpha of 1. It then creates the
     * button and adds the wrapper to the stack view, which traps when there is
     * no wrapper: `built` is false exactly then. `data` is left as it was.
     */
    method Set(d: SecondaryData) returns (built: bool)
      modifies this
      ensures built <==> d.tooltip.Some? || old(hasWrapper)
      ensures d.tooltip.Some? ==> Wrapper() == Some(TooltipView(true, Opaque))
      ensures d.tooltip.None? ==> Wrapper() == old(Wrapper())
      ensures data == old(data)
      ensures hasButton && scale == Normal
    {
      if d.tooltip.Some? {
        hasWrapper := true;
        tooltipHidden := true;
        tooltipAlpha := Opaque;
      }
      hasButton := true;
      scale := Normal;
      built := hasWrapper;
    }

    /**
     * `touchUpinsideAction`: without stored data it returns at once; otherwise
     * it scales the button back to normal and runs the data's action, if any.
     * `invoked` is the action run.
     */
    method TouchUpInside() returns (invoked: Option<ActionId>)
      requires hasButton
      modifies this`scale
      ensures data.None? ==> invoked == None && scale == old(scale)
      ensures data.Some? ==> invoked == data.value.action && scale == Normal
    {
      if data.None? {
        return None;
      }
      scale := Normal;
      invoked := data.value.action;
    }

    /** `touchDownAction`: scales the button down to 0.9. */
    method TouchDown()
      requires hasButton
      modifies this`scale
      ensures scale == Pressed
    {
      scale := Pressed;
    }

    /**
     * `longTapped`: shows a hidden tooltip (alpha 0, then faded to 1); when the
     * press ends, fades it to 0, scales the button back to normal and hides
     * the tooltip. The wrapper must exist: it is dereferenced unconditionally.
     */
    method LongTapped(g: GestureState)
      requires hasButton && hasWrapper
      modifies this`tooltipHidden, this`tooltipAlpha, this`scale
      ensures Wrapper() == Some(LongPressed(old(Wrapper()).value, g))
      ensures scale == if g == Ended then Normal else old(scale)
    {
      if tooltipHidden {
        tooltipHidden := false;
        tooltipAlpha := Transparent;
        tooltipAlpha := Opaque;
      }
      if g == Ended {
        tooltipAlpha := Transparent;
        scale := Normal;
        tooltipHidden := true;
      }
    }
  }

  /**
   * `FloatingSecondaryButton()` followed by `set(data:)`, as the floating view
   * configures each secondary button: it gets through exactly when there is a
   * tooltip, and then the tooltip starts hidden and `data` stays nil.
   */
  method Make(d: SecondaryData) returns (button: SecondaryButton, built: bool)
    ensures fresh(button)
    ensures built <==> d.tooltip.Some?
    ensures built ==> button.Wrapper() == Some(TooltipView(true, Opaque)) && button.data == None
  {
    button := new SecondaryButton();
    built := button.Set(d);
  }

  /**
   * A tap on a freshly configured button: its action never runs, since
   * `set(data:)` leaves `data` nil, and the button stays scaled down because
   * the touch-up handler returns before scaling it back. `built` is false when
   * configuring traps (no tooltip).
   */
  method TapAfterSet(d: SecondaryData) returns (built: bool, invoked: Option<ActionId>, scale: Scale)
    ensures built <==> d.tooltip.Some?
    ensures invoked == None
    ensures built ==> scale == Pressed
  {
    var button := new SecondaryButton();
    built := button.Set(d);
    invoked := None;
    scale := button.scale;
    if built {
      button.TouchDown();
      invoked := button.TouchUpInside();
      scale := button.scale;
    }
  }
}
