# SugarFAB floating action button, modelled in Dafny

SugarFAB is a UIKit floating action button. A primary button expands into a
vertical stack of secondary buttons, and each secondary button may carry a
tooltip.

This project models the bookkeeping behind that widget and proves its
properties:

- **`FloatingView`**: the expand/collapse state and the overlay. It also
  covers the two lists that drive the cascading animation
  (`secondaryToShowViews` and `secondaryToHideViews`), the `isHidden` flags of
  the secondary views, the order of views in the stack, hit testing, the tap
  filter and the pulse layer.
- **`FloatingSecondaryButton`**: the press-and-tooltip state machine.

The project has five modules:

- `Optional`: an `Option` datatype.
- `Sequences`: reversal, the elements of a sequence, absence of repetitions,
  and their lemmas.
- `RevealQueues`: the two lists and the hidden flags as a value (`Panel`).
  - One step of `showSecondaryButtons` and one step of
    `dismissSecondaryButtons` are the functions `ShowStep` and `DismissStep`.
  - Running a step until its guard stops the chain is `RevealChain` or
    `DismissChain`.
  - Lemmas give each chain's closed-form outcome (`Revealed`, `Dismissed`).
    They prove that no view is lost or duplicated, that each view is in
    exactly one list, and in which order views are revealed. They also prove
    that a reveal followed by a dismissal gives back the starting panel.
- `SecondaryButtons`: the secondary button as a class whose methods update its
  fields. `LongPressed` is the tooltip's response to one gesture callback;
  lemmas cover whole gesture sequences.
- `Floating`: `FloatingView` as a class whose methods update its fields. The
  methods are proved against the `RevealQueues` functions. Client methods
  chain the operations: they configure buttons, toggle twice and expand a
  fresh widget.

Views and layers are identities (`nat`); a new view takes the next unused
identity. Scales and alphas are the values their animations move towards.
Every animation's completion handler is assumed to run, so that each chain
runs to its end.

Some behaviours of the code are easy to misread, and the model keeps them as
they are:

- **Reveal order.** Views are inserted at index 0 of both the stack and the
  show list, and the reveal takes the last view of the show list first. So
  for buttons declared A, B, C, the stack shows C on top and A is revealed
  first (`ExpandFreshWidget`, `RevealFollowsDeclarationOrder`).
- **Overlay from construction.** `constructHierarchy` already adds the overlay
  as a subview. So `point(inside:)` claims every point of a freshly built,
  collapsed widget until it is expanded and collapsed once
  (`FreshWidgetClaimsEveryPoint`, `CollapsedWidgetClaimsOnlyStack`).
- **Data never stored.** `FloatingSecondaryButton.set(data:)` never stores
  `data`. So `touchUpinsideAction` always returns early: the action never
  runs, and a tapped button stays scaled down (`TapAfterSet`).
- **Buttons without a tooltip.** For such a button, `labelWrapperView` stays
  nil, and adding it to the stack view traps. `set(buttons:)` therefore
  configures only the buttons before the first one without a tooltip
  (`ConfiguredCount`). It reports the trap as `ok == false`.
- **Ending a long press.** Only `.ended` hides the tooltip. A press that ends
  in `.cancelled` or `.failed` leaves it on screen
  (`UnendedPressShowsTooltip`).

## Model

| member | source | states |
|---|---|---|
| RevealQueues.ShowStep | Sources/SugarFAB/FloatingView.swift:139-150 | No step exactly when the show list is empty. Otherwise its last view moves to the end of the hide list and is no longer hidden; the views in the two lists are unchanged as a multiset, and a panel in sync stays in sync |
| RevealQueues.DismissStep | Sources/SugarFAB/FloatingView.swift:159-171 | No step exactly when the hide list is empty. Otherwise its last view moves to the end of the show list and becomes hidden; the multiset of views is kept, and so is being in sync |
| RevealQueues.RevealChain | Sources/SugarFAB/FloatingView.swift:139-157 | The reveal chain, re-entered from each completion, ends with nothing left to show |
| RevealQueues.DismissChain | Sources/SugarFAB/FloatingView.swift:159-173 | The dismiss chain ends with nothing left to dismiss |
| RevealQueues.ShowStepKeepsOutcome | Sources/SugarFAB/FloatingView.swift:139-157 | A reveal step leaves the chain's final outcome unchanged |
| RevealQueues.DismissStepKeepsOutcome | Sources/SugarFAB/FloatingView.swift:159-173 | A dismiss step leaves the chain's final outcome unchanged |
| RevealQueues.RevealChainEndsRevealed | Sources/SugarFAB/FloatingView.swift:139-157 | The reveal chain ends with the hide list grown by the show list reversed, and those views no longer hidden |
| RevealQueues.DismissChainEndsDismissed | Sources/SugarFAB/FloatingView.swift:159-173 | The dismiss chain ends with the show list grown by the hide list reversed, and those views hidden |
| RevealQueues.ChainsKeepViews | Sources/SugarFAB/FloatingView.swift:139-173 | Neither chain loses, duplicates or invents a view |
| RevealQueues.ChainsKeepInSync | Sources/SugarFAB/FloatingView.swift:139-173 | After either chain, no view is listed twice and exactly the views waiting to be shown are hidden |
| RevealQueues.ExactlyOneList | Sources/SugarFAB/FloatingView.swift:30-31 | Every arranged secondary view is in exactly one of the two lists, and no other view is in either |
| RevealQueues.RevealFollowsDeclarationOrder | Sources/SugarFAB/FloatingView.swift:83-91 | Views inserted at the front in declaration order are revealed in declaration order, after the views that were already waiting |
| RevealQueues.RevealThenDismissRestores | Sources/SugarFAB/FloatingView.swift:114-173 | From a collapsed panel, a full reveal and then a full dismissal give back the panel exactly; views are dismissed in reverse reveal order |
| RevealQueues.DismissThenRevealRestores | Sources/SugarFAB/FloatingView.swift:114-173 | From an expanded panel with nothing waiting, a full dismissal and then a full reveal give back the panel exactly |
| RevealQueues.RevealChainKeepsOrganised | Sources/SugarFAB/FloatingView.swift:139-157 | The reveal chain keeps the arranged views distinct, partitioned between the lists, and in sync with the hidden flags |
| RevealQueues.DismissChainKeepsOrganised | Sources/SugarFAB/FloatingView.swift:159-173 | The same holds for the dismiss chain |
| RevealQueues.AddKeepsOrganised | Sources/SugarFAB/FloatingView.swift:87-89 | Arranging a new view at the front, hiding it and putting it at the front of the show list keeps the panel organised |
| SecondaryButtons.LongPressed | Sources/SugarFAB/FloatingSecondaryButton.swift:139-166 | After one callback the tooltip is hidden exactly when the state is `.ended`, and then at alpha 0; a shown tooltip is untouched by other states; a shown tooltip stays opaque |
| SecondaryButtons.EndedPressHidesTooltip | Sources/SugarFAB/FloatingSecondaryButton.swift:139-166 | A press whose last callback is `.ended` leaves the tooltip hidden at alpha 0, whatever came before |
| SecondaryButtons.UnendedPressShowsTooltip | Sources/SugarFAB/FloatingSecondaryButton.swift:139-166 | A press that never reports `.ended` (for example one that is cancelled) leaves the tooltip on screen, and opaque unless it started on screen and faded |
| SecondaryButtons.SecondaryButton.constructor | Sources/SugarFAB/FloatingSecondaryButton.swift:46-49 | A new button has no data, no tooltip wrapper and no button subview |
| SecondaryButtons.SecondaryButton.Set | Sources/SugarFAB/FloatingSecondaryButton.swift:56-119 | With a tooltip, the wrapper is created hidden. Configuring gets through exactly when a wrapper exists, and `data` is never assigned |
| SecondaryButtons.SecondaryButton.TouchUpInside | Sources/SugarFAB/FloatingSecondaryButton.swift:121-129 | Without data, nothing happens. With data, the button scales back and the data's action runs |
| SecondaryButtons.SecondaryButton.TouchDown | Sources/SugarFAB/FloatingSecondaryButton.swift:131-136 | The button is scaled down to 0.9 |
| SecondaryButtons.SecondaryButton.LongTapped | Sources/SugarFAB/FloatingSecondaryButton.swift:138-166 | The tooltip becomes `LongPressed` of its old state; the button scales back exactly on `.ended` |
| SecondaryButtons.Make | Sources/SugarFAB/FloatingView.swift:85-86 | A new button configured with `d` gets through exactly when `d` has a tooltip, and then its tooltip starts hidden and its data is nil |
| SecondaryButtons.TapAfterSet | Sources/SugarFAB/FloatingSecondaryButton.swift:56-58 | A tap on a configured button never runs the action and leaves the button scaled down |
| Floating.ShouldReceive | Sources/SugarFAB/FloatingView.swift:189-195 | The tap recogniser receives a touch exactly when it lands on the overlay |
| Floating.ConfiguredCount | Sources/SugarFAB/FloatingView.swift:84-90 | The number of buttons configured before the first one without a tooltip traps: all of them have tooltips, and the next one does not |
| Floating.NewestFirstIsReversed | Sources/SugarFAB/FloatingView.swift:87-89 | Inserting each new view at index 0 leaves the views in reverse declaration order |
| Floating.AddViewKeepsArranged | Sources/SugarFAB/FloatingView.swift:85-89 | Adding one newly created view keeps the arranged views organised and below the next identity |
| Floating.AddViewsKeepArranged | Sources/SugarFAB/FloatingView.swift:83-91 | Configuring any number of buttons keeps the arranged views organised and below the next identity |
| Floating.FloatingView.constructor | Sources/SugarFAB/FloatingView.swift:35-41 | A new widget is collapsed, has no secondary views and no pulse layer, and already has the overlay attached |
| Floating.FloatingView.Set | Sources/SugarFAB/FloatingView.swift:51-54 | The same as `SetButtons` on the secondary buttons of `data` |
| Floating.FloatingView.SetButtons | Sources/SugarFAB/FloatingView.swift:83-91 | Succeeds exactly when every button has a tooltip. The configured views go on top of the stack and at the front of the show list, newest first; they are hidden; nothing else changes |
| Floating.FloatingView.AddButton | Sources/SugarFAB/FloatingView.swift:85-89 | Without a tooltip, nothing changes. Otherwise a view with a new identity goes on top of the stack and at the front of the show list, and is hidden |
| Floating.FloatingView.ShowSecondaryButtons | Sources/SugarFAB/FloatingView.swift:139-157 | The lists and hidden flags end as the reveal chain leaves them |
| Floating.FloatingView.DismissSecondaryButtons | Sources/SugarFAB/FloatingView.swift:159-173 | The lists and hidden flags end as the dismiss chain leaves them |
| Floating.FloatingView.PrimaryButtonRotationAnimation | Sources/SugarFAB/FloatingView.swift:114-137 | The expanded flag flips, and the overlay is attached exactly when expanded. Overlay alpha and icon rotation follow the flag. Expanding runs the reveal chain and collapsing runs the dismiss chain |
| Floating.FloatingView.Flip | Sources/SugarFAB/FloatingView.swift:115-133 | The expanded flag flips; the overlay is attached, opaque and the icon rotated exactly when the widget is now expanded |
| Floating.FloatingView.Tap | Sources/SugarFAB/FloatingView.swift:75-77 | A tap on the overlay toggles the widget; any other tap changes nothing |
| Floating.FloatingView.TouchDownAction | Sources/SugarFAB/FloatingView.swift:197-199 | The primary button is scaled down to 0.9 |
| Floating.FloatingView.TouchUpInsideAction | Sources/SugarFAB/FloatingView.swift:201-204 | The primary button scales back, and the widget toggles |
| Floating.FloatingView.PointInside | Sources/SugarFAB/FloatingView.swift:175-184 | A point is claimed exactly when it is inside the stack's frame, or the overlay is in the hierarchy |
| Floating.FloatingView.StopPulsingAnimation | Sources/SugarFAB/FloatingView.swift:63-67 | Without a pulse layer, nothing changes. Otherwise no layer stays attached or animating |
| Floating.FloatingView.StartPulsingAnimation | Sources/SugarFAB/FloatingView.swift:56-61 | Exactly one layer, a new one, is attached and pulsing |
| Floating.SetButtonsKeepsArranged | Sources/SugarFAB/FloatingView.swift:83-91 | Configuring buttons keeps the arranged views distinct, partitioned between the lists and in sync with the hidden flags |
| Floating.ToggleKeepsArranged | Sources/SugarFAB/FloatingView.swift:114-173 | Expanding or collapsing keeps the same arrangement invariant |
| Floating.ToggleTwice | Sources/SugarFAB/FloatingView.swift:114-173 | Two toggles give back the expanded flag. From a collapsed widget, or an expanded one with nothing waiting, they also give back both lists and the hidden flags |
| Floating.FreshWidgetClaimsEveryPoint | Sources/SugarFAB/FloatingView.swift:279-284 | A freshly built, collapsed widget claims every point, because its overlay is already attached |
| Floating.CollapsedWidgetClaimsOnlyStack | Sources/SugarFAB/FloatingView.swift:132-133 | After one expand and one collapse, the widget claims exactly the points in the stack's frame |
| Floating.ExpandFreshWidget | Sources/SugarFAB/FloatingView.swift:83-157 | Configuring a fresh widget and expanding it succeeds exactly when every button has a tooltip. The buttons are then revealed in declaration order, and the stack holds them in reverse order |

## Left out

- Geometry, fonts, colours, images and Auto Layout constraints. The stack's
  frame is a constructor parameter, given in integer coordinates, rather than
  the result of layout.
- Animation durations and timing, and any interleaving of completion handlers
  with user input. Each animation's completion is taken to run at once, so a
  chain runs to its end before the next event.
- `FloatingPrimaryButton` and its `set(data:)`, and the sample app. They are
  not part of this model.
- `createPulsatingLayer`'s position computation. It depends on view heights
  from layout, and it dereferences the stack's first arranged view.
- Floating.FloatingView.Set: configuring the primary button (its colour,
  image and action) is not modelled. Only the secondary buttons are.
- Floating.FloatingView.PrimaryButtonRotationAnimation: the overlay's
  re-insertion at index 0 and its constraints are reduced to a flag. A second
  `insertSubview` of an attached overlay only reorders subviews.
- Floating.FloatingView.StopPulsingAnimation: layers are identities. The
  model tracks which layers are attached and animating, not layer contents.
- Floating.FloatingView.Valid: the arrangement invariant (distinct arranged
  views, partitioned between the two lists, in sync with the hidden flags) is
  carried by the client methods and the `Arranged` lemmas, not by `Valid`.
- SecondaryButtons.SecondaryButton.Set: the image view, the target-action
  registrations and the gesture recogniser are not modelled. A trap is
  reported as `built == false` instead of stopping the program.
- A secondary button's tooltip text is its only modelled content. Its
  colours and font only style the label.
