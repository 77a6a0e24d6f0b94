/**
 * The bookkeeping behind FloatingView's cascading reveal and dismissal of its
 * secondary buttons, as values: the two ordered lists `secondaryToShowViews`
 * and `secondaryToHideViews`, and which secondary views have `isHidden` set.
 * The class Floating.FloatingView keeps these in fields and is proved against
 * the functions here.
 */
module RevealQueues {
  import opened Optional
  import opened Sequences

  /** A secondary view, by identity. */
  type ViewId = nat

  /**
   * `toShow` holds the views still to be revealed (secondaryToShowViews),
   * `toHide` the revealed ones still to be dismissed (secondaryToHideViews),
   * both in list order; `hidden` is the set of secondary views whose
   * `isHidden` flag is set.
   */
  datatype Panel = Panel(toShow: seq<ViewId>, toHide: seq<ViewId>, hidden: set<ViewId>)

  /** The two lists together hold every view of `views` exactly as often as `views` does. */
  ghost predicate Partitions(views: seq<ViewId>, p: Panel)
  {
    multiset(p.toShow + p.toHide) == multiset(views)
  }

  /** No view is in the lists twice, and exactly the views waiting to be revealed are hidden. */
  ghost predicate InSync(p: Panel)
  {
    Distinct(p.toShow + p.toHide) && p.hidden == Elements(p.toShow)
  }

  /**
   * One step of the reveal chain (FloatingView.showSecondaryButtons): the last
   * view of the show list moves to the end of the hide list and is un-hidden.
   * None is the guard's early return on an empty show list, which ends the chain.
   */
  function ShowStep(p: Panel): (r: Option<Panel>)
    ensures r.None? <==> p.toShow == []
    ensures r.Some? ==>
              var view := Last(p.toShow);
              && r.value.toShow + [view] == p.toShow
              && r.value.toHide == p.toHide + [view]
              && r.value.hidden == p.hidden - {view}
              && multiset(r.value.toShow + r.value.toHide) == multiset(p.toShow + p.toHide)
              && (InSync(p) ==> InSync(r.value))
  {
    if p.toShow == [] then None
    else
      var view := Last(p.toShow);
      var q := Panel(DropLast(p.toShow), p.toHide + [view], p.hidden - {view});
      assert p.toShow == q.toShow + [view];
      assert multiset(p.toShow + p.toHide) == multiset(q.toShow + q.toHide);
      assert InSync(p) ==> InSync(q) by {
        if InSync(p) {
          assert p.toShow + p.toHide == q.toShow + [view] + p.toHide;
          DistinctNotBefore(q.toShow, view, p.toHide);
          assert Elements(q.toShow) == Elements(p.toShow) - {view};
        }
      }
      Some(q)
  }

  /**
   * One step of the dismiss chain (FloatingView.dismissSecondaryButtons): the
   * last view of the hide list moves to the end of the show list and, once its
   * shrinking animation completes, is hidden. None ends the chain.
   */
  function DismissStep(p: Panel): (r: Option<Panel>)
    ensures r.None? <==> p.toHide == []
    ensures r.Some? ==>
              var view := Last(p.toHide);
              && r.value.toHide + [view] == p.toHide
              && r.value.toShow == p.toShow + [view]
              && r.value.hidden == p.hidden + {view}
              && multiset(r.value.toShow + r.value.toHide) == multiset(p.toShow + p.toHide)
              && (InSync(p) ==> InSync(r.value))
  {
    if p.toHide == [] then None
    else
      var view := Last(p.toHide);
      var q := Panel(p.toShow + [view], DropLast(p.toHide), p.hidden + {view});
      assert p.toHide == q.toHide + [view];
      assert multiset(p.toShow + p.toHide) == multiset(q.toShow + q.toHide);
      Some(q)
  }

  /**
   * The reveal chain run as values (showSecondaryButtons re-entered from each
   * animation's completion): steps until the guard finds the show list empty.
   */
  function RevealChain(p: Panel): (r: Panel)
    ensures r.toShow == []
    decreases |p.toShow|
  {
    match ShowStep(p)
    case None => p
    case Some(q) => RevealChain(q)
  }

  /** The dismiss chain run as values (dismissSecondaryButtons), likewise. */
  function DismissChain(p: Panel): (r: Panel)
    ensures r.toHide == []
    decreases |p.toHide|
  {
    match DismissStep(p)
    case None => p
    case Some(q) => DismissChain(q)
  }

  /**
   * Where the reveal chain ends: nothing left to show, the hide list grown by
   * the reverse of the show list (views are revealed last-first), and those
   * views no longer hidden.
   */
  function Revealed(p: Panel): Panel
  {
    Panel([], p.toHide + Reversed(p.toShow), p.hidden - Elements(p.toShow))
  }

  /**
   * Where the dismiss chain ends: nothing left to dismiss, the show list grown
   * by the reverse of the hide list, and those views hidden again.
   */
  function Dismissed(p: Panel): Panel
  {
    Panel(p.toShow + Reversed(p.toHide), [], p.hidden + Elements(p.toHide))
  }

  /** A reveal step does not change where the chain ends. */
  lemma ShowStepKeepsOutcome(p: Panel)
    requires p.toShow != []
    ensures Revealed(ShowStep(p).value) == Revealed(p)
  {
    var q, view := ShowStep(p).value, Last(p.toShow);
    assert DropLast(p.toShow) == q.toShow;
    assert Reversed(p.toShow) == [view] + Reversed(q.toShow);
    assert q.toHide + Reversed(q.toShow) == p.toHide + Reversed(p.toShow);
    assert Elements(p.toShow) == Elements(q.toShow) + {view};
    assert q.hidden - Elements(q.toShow) == p.hidden - Elements(p.toShow);
  }

  /** A dismiss step does not change where the chain ends. */
  lemma DismissStepKeepsOutcome(p: Panel)
    requires p.toHide != []
    ensures Dismissed(DismissStep(p).value) == Dismissed(p)
  {
    var q, view := DismissStep(p).value, Last(p.toHide);
    assert DropLast(p.toHide) == q.toHide;
    assert Reversed(p.toHide) == [view] + Reversed(q.toHide);
    assert q.toShow + Reversed(q.toHide) == p.toShow + Reversed(p.toHide);
    assert Elements(p.toHide) == Elements(q.toHide) + {view};
    assert q.hidden + Elements(q.toHide) == p.hidden + Elements(p.toHide);
  }

  /** The reveal chain runs until the show list is empty and ends at Revealed. */
  lemma {:induction false} RevealChainEndsRevealed(p: Panel)
    ensures RevealChain(p) == Revealed(p)
    decreases |p.toShow|
  {
    if p.toShow == [] {
      assert Elements(p.toShow) == {};
    } else {
      ShowStepKeepsOutcome(p);
      RevealChainEndsRevealed(ShowStep(p).value);
    }
  }

  /** The dismiss chain runs until the hide list is empty and ends at Dismissed. */
  lemma {:induction false} DismissChainEndsDismissed(p: Panel)
    ensures DismissChain(p) == Dismissed(p)
    decreases |p.toHide|
  {
    if p.toHide == [] {
      assert Elements(p.toHide) == {};
    } else {
      DismissStepKeepsOutcome(p);
      DismissChainEndsDismissed(DismissStep(p).value);
    }
  }

  /** Neither chain loses, duplicates or invents a view. */
  lemma ChainsKeepViews(p: Panel)
    ensures multiset(Revealed(p).toShow + Revealed(p).toHide) == multiset(p.toShow + p.toHide)
    ensures multiset(Dismissed(p).toShow + Dismissed(p).toHide) == multiset(p.toShow + p.toHide)
  {
    ReversedMultiset(p.toShow);
    ReversedMultiset(p.toHide);
    assert Revealed(p).toShow + Revealed(p).toHide == p.toHide + Reversed(p.toShow);
  }

  /** Both chains keep a panel in sync: no view twice, exactly the unrevealed views hidden. */
  lemma ChainsKeepInSync(p: Panel)
    requires InSync(p)
    ensures InSync(Revealed(p)) && InSync(Dismissed(p))
  {
    ChainsKeepViews(p);
    ReversedElements(p.toHide);
  }

  /**
   * Every configured view is in exactly one of the two lists, and no other view
   * is in either.
   */
  lemma ExactlyOneList(views: seq<ViewId>, p: Panel, v: ViewId)
    requires Distinct(views) && Partitions(views, p)
    ensures v in views <==> v in p.toShow || v in p.toHide
    ensures v in views ==> (v in p.toShow <==> v !in p.toHide)
  {
    assert multiset(p.toShow + p.toHide) == multiset(p.toShow) + multiset(p.toHide);
    assert v in views <==> v in multiset(views);
    assert multiset(views)[v] == multiset(p.toShow)[v] + multiset(p.toHide)[v];
  }

  /**
   * Views configured in declaration order `ids` sit at the front of the show
   * list reversed; a full reveal then reveals whatever was already waiting
   * first, and the configured views in declaration order: the first-declared
   * view first.
   */
  lemma {:induction false} RevealFollowsDeclarationOrder(ids: seq<ViewId>, waiting: seq<ViewId>, p: Panel)
    requires p.toShow == Reversed(ids) + waiting
    ensures Revealed(p).toHide == p.toHide + (Reversed(waiting) + ids)
  {
    ReversedAppend(Reversed(ids), waiting);
    ReversedReversed(ids);
  }

  /**
   * From a collapsed panel (nothing revealed, every waiting view hidden), a
   * full reveal followed by a full dismissal restores the panel exactly: the
   * views are dismissed in the reverse of the order they were revealed in.
   */
  lemma {:induction false} RevealThenDismissRestores(p: Panel)
    requires p.toHide == [] && Elements(p.toShow) <= p.hidden
    ensures Revealed(p).toHide == Reversed(p.toShow)
    ensures Dismissed(Revealed(p)) == p
  {
    var r := Revealed(p);
    assert r.toHide == Reversed(p.toShow);
    ReversedReversed(p.toShow);
    ReversedElements(p.toShow);
    assert Elements(r.toHide) == Elements(p.toShow);
    assert r.hidden + Elements(p.toShow) == p.hidden;
  }

  /**
   * From an expanded panel with nothing waiting and no revealed view hidden,
   * a full dismissal followed by a full reveal restores the panel exactly.
   */
  lemma {:induction false} DismissThenRevealRestores(p: Panel)
    requires p.toShow == [] && p.hidden !! Elements(p.toHide)
    ensures Revealed(Dismissed(p)) == p
  {
    var d := Dismissed(p);
    assert d.toShow == Reversed(p.toHide);
    ReversedReversed(p.toHide);
    ReversedElements(p.toHide);
    assert Elements(d.toShow) == Elements(p.toHide);
    assert d.hidden - Elements(p.toHide) == p.hidden;
  }

  /**
   * The secondary views arranged in the stack, `views`, and the panel over
   * them: no view is arranged twice, the two lists hold exactly the arranged
   * views, and the panel is in sync.
   */
  ghost predicate Organised(views: seq<ViewId>, p: Panel)
  {
    Distinct(views) && Partitions(views, p) && InSync(p)
  }

  /**
   * Every configured view is in exactly one list before and after every
   * reveal step, so when the reveal chain ends.
   */
  lemma {:induction false} RevealChainKeepsOrganised(views: seq<ViewId>, p: Panel)
    requires Organised(views, p)
    ensures Organised(views, RevealChain(p))
    decreases |p.toShow|
  {
    if p.toShow != [] {
      RevealChainKeepsOrganised(views, ShowStep(p).value);
    }
  }

  /** Likewise for every dismiss step and the dismiss chain. */
  lemma {:induction false} DismissChainKeepsOrganised(views: seq<ViewId>, p: Panel)
    requires Organised(views, p)
    ensures Organised(views, DismissChain(p))
    decreases |p.toHide|
  {
    if p.toHide != [] {
      DismissChainKeepsOrganised(views, DismissStep(p).value);
    }
  }

  /**
   * Configuring a new view (set(buttons:)): it goes on top of the arranged
   * views, at the front of the show list, and is hidden; the panel stays
   * organised.
   */
  lemma AddKeepsOrganised(views: seq<ViewId>, p: Panel, v: ViewId)
    requires Organised(views, p) && v !in views
    ensures Organised([v] + views, Panel([v] + p.toShow, p.toHide, p.hidden + {v}))
  {
    var q := Panel([v] + p.toShow, p.toHide, p.hidden + {v});
    assert multiset([v] + views) == multiset{v} + multiset(views);
    assert q.toShow + q.toHide == [v] + (p.toShow + p.toHide);
    assert v !in p.toShow + p.toHide by {
      assert multiset(p.toShow + p.toHide) == multiset(views);
      assert multiset(views)[v] == 0;
    }
    assert multiset(q.toShow + q.toHide) == multiset{v} + multiset(p.toShow + p.toHide);
    assert Elements(q.toShow) == Elements(p.toShow) + {v};
  }
}
