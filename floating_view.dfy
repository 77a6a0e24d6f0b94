/**
 * FloatingView: the composite floating-action-button widget. It owns the
 * primary button and a vertical stack of secondary buttons, a dimming overlay
 * and a pulsing halo layer, and it expands and collapses the stack by chained
 * one-at-a-time animations. Views and layers are identities; animations are
 * the values they target.
 */
module Floating {
  import opened Optional
  import opened Sequences
  import opened RevealQueues
  import SecondaryButtons

  /** A point in the widget's coordinates. */
  datatype Point = Point(x: int, y: int)

  /** A frame: origin and size. */
  datatype Rect = Rect(x: int, y: int, width: nat, height: nat)
  {
    /** CGRect.contains: the minimum edges belong to the frame, the maximum edges do not. */
    predicate Contains(p: Point)
    {
      x <= p.x < x + width && y <= p.y < y + height
    }
  }

  /** The view a touch lands on, as the tap recogniser's delegate sees it. */
  datatype TouchedView = Overlay | StackView | PrimaryButton | SecondaryView(id: ViewId) | Background

  /** A pulsing halo layer, by identity. */
  type LayerId = nat

  /** FloatingPrimaryButtonData: colour and image by identity, and an optional action. */
  datatype PrimaryButtonData = PrimaryButtonData(color: nat, image: nat, action: Option<SecondaryButtons.ActionId>)

  /** FloatingViewData: the primary button and the secondary buttons in declaration order. */
  datatype FloatingViewData = FloatingViewData(
    primaryButton: PrimaryButtonData,
    secondaryButtons: seq<SecondaryButtons.SecondaryData>)

  /** `gestureRecognizer(_:shouldReceive:)`: the tap recogniser takes exactly the touches on the overlay. */
  function ShouldReceive(touched: TouchedView): (r: bool)
    ensures r <==> touched == Overlay
  {
    touched == Overlay
  }

  /**
   * How many of `buttons` `set(buttons:)` gets through: configuring a
   * secondary button without a tooltip traps.
   */
  function ConfiguredCount(buttons: seq<SecondaryButtons.SecondaryData>): (k: nat)
    ensures k <= |buttons|
    ensures forall i :: 0 <= i < k ==> buttons[i].tooltip.Some?
    ensures k < |buttons| ==> buttons[k].tooltip.None?
  {
    if buttons == [] || buttons[0].tooltip.None? then 0 else 1 + ConfiguredCount(buttons[1..])
  }

  /** The `count` view identities handed out from `first` on, in order. */
  function ViewIds(first: ViewId, count: nat): seq<ViewId>
  {
    seq(count, i => first + i)
  }

  /**
   * The `count` identities handed out from `first` on, newest first: the
   * order in which `set(buttons:)` leaves them, since each is inserted at 0.
   */
  function NewestFirst(first: ViewId, count: nat): seq<ViewId>
  {
    if count == 0 then [] else [first + count - 1] + NewestFirst(first, count - 1)
  }

  /** Newest first is declaration order reversed. */
  lemma {:induction false} NewestFirstIsReversed(first: ViewId, count: nat)
    ensures NewestFirst(first, count) == Reversed(ViewIds(first, count))
  {
    if count > 0 {
      var ids, prev := ViewIds(first, count), ViewIds(first, count - 1);
      assert |DropLast(ids)| == |prev|;
      assert forall i :: 0 <= i < |prev| ==> DropLast(ids)[i] == prev[i];
      assert DropLast(ids) == prev;
      assert Last(ids) == first + count - 1;
      NewestFirstIsReversed(first, count - 1);
    }
  }

  /** Every view of `views` was handed out before `next`. */
  ghost predicate AllBelow(views: seq<ViewId>, next: ViewId)
  {
    forall v :: v in views ==> v < next
  }

  /**
   * The secondary views are in order: the two lists partition the views
   * arranged in the stack, exactly the views waiting to be revealed are
   * hidden, and every identity was handed out before `next`.
   */
  ghost predicate Arranged(views: seq<ViewId>, p: Panel, next: ViewId)
  {
    Organised(views, p) && AllBelow(views, next)
  }

  /** Configuring one view with the next identity keeps the views arranged. */
  lemma AddViewKeepsArranged(views: seq<ViewId>, p: Panel, next: ViewId)
    requires Arranged(views, p, next)
    ensures Arranged([next] + views, Panel([next] + p.toShow, p.toHide, p.hidden + {next}), next + 1)
  {
    AddKeepsOrganised(views, p, next);
  }

  /**
   * `set(buttons:)` configuring `k` buttons, each given the next identity:
   * the views stay arranged.
   */
  lemma {:induction false} AddViewsKeepArranged(views: seq<ViewId>, p: Panel, next: ViewId, k: nat)
    requires Arranged(views, p, next)
    ensures var added := NewestFirst(next, k);
            Arranged(added + views, Panel(added + p.toShow, p.toHide, p.hidden + Elements(added)), next + k)
    decreases k
  {
    var added := NewestFirst(next, k);
    if k == 0 {
      assert added + views == views && added + p.toShow == p.toShow;
      assert p.hidden + Elements(added) == p.hidden;
    } else {
      var j: nat := k - 1;
      var prev := NewestFirst(next, j);
      var newest: ViewId := next + j;
      AddViewsKeepArranged(views, p, next, j);
      AddViewKeepsArranged(prev + views, Panel(prev + p.toShow, p.toHide, p.hidden + Elements(prev)), newest);
      assert added == [newest] + prev;
      AppendAssoc([newest], prev, views);
      AppendAssoc([newest], prev, p.toShow);
      assert Elements(added) == Elements(prev) + {newest};
    }
  }

  /**
   * Only the current pulse layer can be in the layer tree or carry the
   * pulsing animation, and its identity was handed out.
   */
  ghost predicate LayersTracked(current: Option<LayerId>, attached: set<LayerId>, animating: set<LayerId>, next: LayerId)
  {
    && attached <= (if current.Some? then {current.value} else {})
    && animating <= attached
    && (current.Some? ==> current.value < next)
  }

  class FloatingView {
    var isExpanded: bool
    /** Whether `overlayView` is in the view hierarchy (`isDescendant(of: self)`). */
    var overlayAttached: bool
    /** Whether the overlay's alpha is animated to 1 rather than 0. */
    var overlayOpaque: bool
    /** Whether the primary button's icon is rotated by a quarter turn's half (pi/4). */
    var iconRotated: bool
    var primaryScale: SecondaryButtons.Scale
    /**
     * The secondary views arranged in `mainStackView`, top first; the primary
     * button is always the last arranged view, since every secondary view is
     * inserted at index 0.
     */
    var stacked: seq<ViewId>
    /** `secondaryToShowViews`. */
    var toShow: seq<ViewId>
    /** `secondaryToHideViews`. */
    var toHide: seq<ViewId>
    /** The secondary views whose `isHidden` is set. */
    var hidden: set<ViewId>
    /** The identity the next secondary view gets. */
    var nextView: ViewId
    /** `pulsatingLayer`: nil until the first pulse starts. */
    var pulseLayer: Option<LayerId>
    /** The pulse layers inserted in the view's layer and not removed. */
    var attachedLayers: set<LayerId>
    /** The pulse layers that carry the pulsing animation. */
    var animatingLayers: set<LayerId>
    var nextLayer: LayerId
    /** The frame Auto Layout gives `mainStackView`. */
    const stackFrame: Rect

    /**
     * What holds once every chain has run: collapsed means nothing is
     * revealed, expanded means the overlay is attached, overlay alpha and icon
     * rotation follow the state, and only the current pulse layer is around.
     * That the lists partition the arranged views is `Arranged`, kept by
     * every operation as the lemmas below show.
     */
    ghost predicate Valid()
      reads this`pulseLayer, this`attachedLayers, this`animatingLayers, this`nextLayer
      reads this`isExpanded, this`toHide, this`overlayAttached, this`overlayOpaque, this`iconRotated
    {
      && LayersTracked(pulseLayer, attachedLayers, animatingLayers, nextLayer)
      && (!isExpanded ==> toHide == [])
      && (isExpanded ==> overlayAttached)
      && overlayOpaque == isExpanded
      && iconRotated == isExpanded
    }

    /**
     * `init(frame:)`: collapsed, no secondary views, and the overlay already
     * added as a subview (at alpha 0) by `constructHierarchy`.
     */
    constructor (stackFrame: Rect)
      ensures Valid()
      ensures this.stackFrame == stackFrame
      ensures !isExpanded && overlayAttached && primaryScale == SecondaryButtons.Normal
      ensures stacked == [] && Panel(toShow, toHide, hidden) == Panel([], [], {}) && nextView == 0
      ensures pulseLayer == None && attachedLayers == {} && animatingLayers == {}
    {
      this.stackFrame := stackFrame;
      isExpanded := false;
      overlayAttached := true;
      overlayOpaque := false;
      iconRotated := false;
      primaryScale := SecondaryButtons.Normal;
      stacked, toShow, toHide, hidden := [], [], [], {};
      nextView := 0;
      pulseLayer := None;
      attachedLayers, animatingLayers := {}, {};
      nextLayer := 0;
    }

    /**
     * `set(data:)`: configures the primary button (its colour, image and touch
     * targets only) and then the secondary buttons.
     */
    method Set(data: FloatingViewData) returns (ok: bool)
      requires Valid()
      modifies this`stacked, this`toShow, this`hidden, this`nextView
      ensures Valid()
      ensures var added := NewestFirst(old(nextView), ConfiguredCount(data.secondaryButtons));
              && (ok <==> ConfiguredCount(data.secondaryButtons) == |data.secondaryButtons|)
              && nextView == old(nextView) + ConfiguredCount(data.secondaryButtons)
              && stacked == added + old(stacked)
              && Panel(toShow, toHide, hidden) == Panel(added + old(toShow), old(toHide), old(hidden) + Elements(added))
    {
      ok := SetButtons(data.secondaryButtons);
    }

    /**
     * `set(buttons:)`: for each button in declaration order, a new secondary
     * view is configured and takes its place (InsertView). Nothing is cleared
     * first. `ok` is
     * false when a button without a tooltip traps; the views before it stay.
     */
    method SetButtons(buttons: seq<SecondaryButtons.SecondaryData>) returns (ok: bool)
      requires Valid()
      modifies this`stacked, this`toShow, this`hidden, this`nextView
      ensures Valid()
      ensures var added := NewestFirst(old(nextView), ConfiguredCount(buttons));
              && (ok <==> ConfiguredCount(buttons) == |buttons|)
              && nextView == old(nextView) + ConfiguredCount(buttons)
              && stacked == added + old(stacked)
              && Panel(toShow, toHide, hidden) == Panel(added + old(toShow), old(toHide), old(hidden) + Elements(added))
    {
      var first: ViewId, i: nat := nextView, 0;
      ghost var stacked0, toShow0, hidden0 := stacked, toShow, hidden;
      while i < |buttons|
        invariant i <= ConfiguredCount(buttons)
        invariant nextView == first + i
        invariant stacked == NewestFirst(first, i) + stacked0
        invariant toShow == NewestFirst(first, i) + toShow0
        invariant hidden == hidden0 + Elements(NewestFirst(first, i))
      {
        var built := AddButton(buttons[i]);
        if !built {
          return false;
        }
        ghost var newest: ViewId := first + i;
        ghost var added := NewestFirst(first, i);
        assert NewestFirst(first, i + 1) == [newest] + added;
        AppendAssoc([newest], added, stacked0);
        AppendAssoc([newest], added, toShow0);
        assert Elements([newest] + added) == Elements(added) + {newest};
        i := i + 1;
      }
      ok := true;
    }

    /**
     * One iteration of `set(buttons:)`: a new secondary button is configured
     * from `d`; it then goes to the top of the stack
     * (`insertArrangedSubview(view, at: 0)`), is hidden, and goes to the front
     * of the show list (`insert(view, at: 0)`). Without a tooltip configuring
     * traps, `built` is false and nothing else happens.
     */
    method AddButton(d: SecondaryButtons.SecondaryData) returns (built: bool)
      modifies this`stacked, this`toShow, this`hidden, this`nextView
      ensures built <==> d.tooltip.Some?
      ensures !built ==> stacked == old(stacked) && Panel(toShow, toHide, hidden) == old(Panel(toShow, toHide, hidden)) && nextView == old(nextView)
      ensures built ==> var view := old(nextView);
                        && nextView == view + 1
                        && stacked == [view] + old(stacked)
                        && Panel(toShow, toHide, hidden) == Panel([view] + old(toShow), old(toHide), old(hidden) + {view})
    {
      var button;
      button, built := SecondaryButtons.Make(d);
      if !built {
        return;
      }
      var view := nextView;
      nextView := nextView + 1;
      stacked := [view] + stacked;
      hidden := hidden + {view};
      toShow := [view] + toShow;
    }

    /**
     * `showSecondaryButtons`: one reveal step (the last view waiting moves to
     * the end of the hide list and is shown), re-entered from the step's
     * animation completion until the guard finds nothing left to show.
     */
    method ShowSecondaryButtons()
      modifies this`toShow, this`toHide, this`hidden
      ensures Panel(toShow, toHide, hidden) == RevealChain(old(Panel(toShow, toHide, hidden)))
      decreases |toShow|
    {
      if toShow == [] {
        return;
      }
      var view := Last(toShow);
      toHide := toHide + [view];
      toShow := DropLast(toShow);
      hidden := hidden - {view};
      ShowSecondaryButtons();
    }

    /**
     * `dismissSecondaryButtons`: one dismiss step (the last revealed view
     * moves to the end of the show list and, once shrunk, is hidden),
     * re-entered from the animation completion until nothing is left.
     */
    method DismissSecondaryButtons()
      modifies this`toShow, this`toHide, this`hidden
      ensures Panel(toShow, toHide, hidden) == DismissChain(old(Panel(toShow, toHide, hidden)))
      decreases |toHide|
    {
      if toHide == [] {
        return;
      }
      var view := Last(toHide);
      toShow := toShow + [view];
      toHide := DropLast(toHide);
      hidden := hidden + {view};
      DismissSecondaryButtons();
    }

    /**
     * `primaryButtonRotationAnimation`: flips `isExpanded`. Expanding attaches
     * the overlay, fades it in, rotates the icon, then runs the reveal chain;
     * collapsing fades the overlay out, rotates the icon back, detaches the
     * overlay, then runs the dismiss chain.
     */
    method PrimaryButtonRotationAnimation()
      requires Valid()
      modifies this`isExpanded, this`overlayAttached, this`overlayOpaque, this`iconRotated
      modifies this`toShow, this`toHide, this`hidden
      ensures Valid()
      ensures isExpanded == !old(isExpanded)
      ensures overlayAttached == isExpanded
      ensures isExpanded ==> Panel(toShow, toHide, hidden) == RevealChain(old(Panel(toShow, toHide, hidden)))
      ensures !isExpanded ==> Panel(toShow, toHide, hidden) == DismissChain(old(Panel(toShow, toHide, hidden)))
    {
      Flip();
      if isExpanded {
        ShowSecondaryButtons();
      } else {
        DismissSecondaryButtons();
      }
    }

    /**
     * The flag part of a toggle: `isExpanded` flips; expanding attaches the
     * overlay, fades it in and rotates the icon; collapsing fades the overlay
     * out, rotates the icon back and, once that animation completes, detaches
     * the overlay.
     */
    method Flip()
      modifies this`isExpanded, this`overlayAttached, this`overlayOpaque, this`iconRotated
      ensures isExpanded == !old(isExpanded)
      ensures overlayAttached == overlayOpaque == iconRotated == isExpanded
    {
      isExpanded := !isExpanded;
      if isExpanded {
        overlayAttached := true;
        overlayOpaque := true;
        iconRotated := true;
      } else {
        overlayOpaque := false;
        iconRotated := false;
        overlayAttached := false;
      }
    }

    /**
     * A tap seen by the view's tap recogniser: the delegate filter decides
     * whether `handleTapRecognizer` runs, which toggles the widget.
     */
    method Tap(touched: TouchedView)
      requires Valid()
      modifies this`isExpanded, this`overlayAttached, this`overlayOpaque, this`iconRotated
      modifies this`toShow, this`toHide, this`hidden
      ensures Valid()
      ensures isExpanded == (old(isExpanded) != ShouldReceive(touched))
      ensures ShouldReceive(touched) && isExpanded ==> Panel(toShow, toHide, hidden) == RevealChain(old(Panel(toShow, toHide, hidden)))
      ensures ShouldReceive(touched) && !isExpanded ==> Panel(toShow, toHide, hidden) == DismissChain(old(Panel(toShow, toHide, hidden)))
      ensures !ShouldReceive(touched) ==> Panel(toShow, toHide, hidden) == old(Panel(toShow, toHide, hidden)) && overlayAttached == old(overlayAttached)
    {
      if ShouldReceive(touched) {
        PrimaryButtonRotationAnimation();
      }
    }

    /** The primary button's touch-down, forwarded by its delegate: scale down to 0.9. */
    method TouchDownAction()
      modifies this`primaryScale
      ensures primaryScale == SecondaryButtons.Pressed
    {
      primaryScale := SecondaryButtons.Pressed;
    }

    /** The primary button's touch-up-inside, forwarded by its delegate: scale back up, then toggle. */
    method TouchUpInsideAction()
      requires Valid()
      modifies this`primaryScale, this`isExpanded, this`overlayAttached, this`overlayOpaque, this`iconRotated
      modifies this`toShow, this`toHide, this`hidden
      ensures Valid()
      ensures primaryScale == SecondaryButtons.Normal
      ensures isExpanded == !old(isExpanded)
      ensures overlayAttached == isExpanded
      ensures isExpanded ==> Panel(toShow, toHide, hidden) == RevealChain(old(Panel(toShow, toHide, hidden)))
      ensures !isExpanded ==> Panel(toShow, toHide, hidden) == DismissChain(old(Panel(toShow, toHide, hidden)))
    {
      primaryScale := SecondaryButtons.Normal;
      PrimaryButtonRotationAnimation();
    }

    /**
     * `point(inside:with:)`: the widget claims a point inside the stack's
     * frame, and every point while the overlay is in the hierarchy.
     */
    method PointInside(p: Point) returns (inside: bool)
      ensures inside <==> stackFrame.Contains(p) || overlayAttached
    {
      if stackFrame.Contains(p) {
        inside := true;
      } else if overlayAttached {
        inside := true;
      } else {
        inside := false;
      }
    }

    /**
     * `stopPulsingAnimation`: without a layer it does nothing; otherwise the
     * layer loses its animations and leaves the layer tree (and stays the
     * current layer).
     */
    method StopPulsingAnimation()
      requires LayersTracked(pulseLayer, attachedLayers, animatingLayers, nextLayer)
      modifies this`attachedLayers, this`animatingLayers
      ensures LayersTracked(pulseLayer, attachedLayers, animatingLayers, nextLayer)
      ensures old(pulseLayer).None? ==> attachedLayers == old(attachedLayers) && animatingLayers == old(animatingLayers)
      ensures attachedLayers == {} && animatingLayers == {}
    {
      if pulseLayer.None? {
        return;
      }
      var layer := pulseLayer.value;
      animatingLayers := animatingLayers - {layer};
      attachedLayers := attachedLayers - {layer};
    }

    /**
     * `startPulsingAnimation`: stops any pulse, creates and inserts a fresh
     * layer, and adds the pulsing animation to it: exactly one layer pulses.
     */
    method StartPulsingAnimation()
      requires LayersTracked(pulseLayer, attachedLayers, animatingLayers, nextLayer)
      modifies this`attachedLayers, this`animatingLayers, this`pulseLayer, this`nextLayer
      ensures LayersTracked(pulseLayer, attachedLayers, animatingLayers, nextLayer)
      ensures pulseLayer.Some? && pulseLayer != old(pulseLayer)
      ensures attachedLayers == {pulseLayer.value} && animatingLayers == {pulseLayer.value}
    {
      StopPulsingAnimation();
      var layer := nextLayer;
      nextLayer := nextLayer + 1;
      pulseLayer := Some(layer);
      attachedLayers := attachedLayers + {layer};
      animatingLayers := animatingLayers + {layer};
    }
  }

  /** Configuring buttons keeps the secondary views arranged. */
  method SetButtonsKeepsArranged(v: FloatingView, buttons: seq<SecondaryButtons.SecondaryData>) returns (ok: bool)
    requires v.Valid() && Arranged(v.stacked, Panel(v.toShow, v.toHide, v.hidden), v.nextView)
    modifies v
    ensures v.Valid() && Arranged(v.stacked, Panel(v.toShow, v.toHide, v.hidden), v.nextView)
  {
    ghost var views, p, next := v.stacked, Panel(v.toShow, v.toHide, v.hidden), v.nextView;
    ok := v.SetButtons(buttons);
    AddViewsKeepArranged(views, p, next, ConfiguredCount(buttons));
  }

  /** Expanding or collapsing keeps the secondary views arranged. */
  method ToggleKeepsArranged(v: FloatingView)
    requires v.Valid() && Arranged(v.stacked, Panel(v.toShow, v.toHide, v.hidden), v.nextView)
    modifies v
    ensures v.Valid() && Arranged(v.stacked, Panel(v.toShow, v.toHide, v.hidden), v.nextView)
  {
    ghost var p := Panel(v.toShow, v.toHide, v.hidden);
    v.PrimaryButtonRotationAnimation();
    if v.isExpanded {
      RevealChainKeepsOrganised(v.stacked, p);
    } else {
      DismissChainKeepsOrganised(v.stacked, p);
    }
  }

  /**
   * Two toggles give back the expanded flag and, from a collapsed widget (or
   * an expanded one with nothing waiting to be shown), both lists and the
   * hidden flags.
   */
  method ToggleTwice(v: FloatingView)
    requires v.Valid() && Arranged(v.stacked, Panel(v.toShow, v.toHide, v.hidden), v.nextView)
    modifies v
    ensures v.Valid()
    ensures v.isExpanded == old(v.isExpanded)
    ensures !old(v.isExpanded) || old(v.toShow) == [] ==> Panel(v.toShow, v.toHide, v.hidden) == old(Panel(v.toShow, v.toHide, v.hidden))
  {
    ghost var start := Panel(v.toShow, v.toHide, v.hidden);
    v.PrimaryButtonRotationAnimation();
    ghost var middle := Panel(v.toShow, v.toHide, v.hidden);
    v.PrimaryButtonRotationAnimation();
    if !old(v.isExpanded) {
      RevealChainEndsRevealed(start);
      DismissChainEndsDismissed(middle);
      RevealThenDismissRestores(start);
    } else if start.toShow == [] {
      DismissChainEndsDismissed(start);
      RevealChainEndsRevealed(middle);
      DismissThenRevealRestores(start);
    }
  }

  /**
   * A freshly built widget claims every point, though collapsed: its overlay
   * is in the hierarchy from construction on, at alpha 0.
   */
  method FreshWidgetClaimsEveryPoint(frame: Rect, p: Point) returns (inside: bool)
    ensures inside
  {
    var v := new FloatingView(frame);
    inside := v.PointInside(p);
  }

  /** After one expand and collapse, the collapsed widget claims only points in the stack's frame. */
  method CollapsedWidgetClaimsOnlyStack(frame: Rect, p: Point) returns (inside: bool)
    ensures inside <==> frame.Contains(p)
  {
    var v := new FloatingView(frame);
    v.PrimaryButtonRotationAnimation();
    v.PrimaryButtonRotationAnimation();
    inside := v.PointInside(p);
  }

  /**
   * Configuring a fresh widget with `buttons` and expanding it: the stack
   * shows the last-declared button on top, and the buttons are revealed in
   * declaration order, the first-declared (nearest the primary button) first.
   */
  method ExpandFreshWidget(frame: Rect, buttons: seq<SecondaryButtons.SecondaryData>)
    returns (ok: bool, stack: seq<ViewId>, revealed: seq<ViewId>)
    ensures ok <==> forall i :: 0 <= i < |buttons| ==> buttons[i].tooltip.Some?
    ensures ok ==> revealed == ViewIds(0, |buttons|) && stack == Reversed(revealed)
  {
    var v := new FloatingView(frame);
    ok := v.SetButtons(buttons);
    ghost var configured := Panel(v.toShow, v.toHide, v.hidden);
    v.PrimaryButtonRotationAnimation();
    stack, revealed := v.stacked, v.toHide;
    if ok {
      var ids := ViewIds(0, |buttons|);
      NewestFirstIsReversed(0, |buttons|);
      RevealChainEndsRevealed(configured);
      RevealFollowsDeclarationOrder(ids, [], configured);
    }
  }
}
