/**
 * The menu redraw caches of render/menu/menu_cache.rs. The renderer keeps
 * three process-wide caches: the key and selected row of the last menu
 * drawn, the key of the last high-scores screen drawn, and the last region
 * the menu claimed. Here they are the fields of one object.
 */
module MenuCache {
  import opened Utils
  import Storage
  import opened Shared

  /** The smallest rectangle covering both. */
  function RectUnion(a: Rect, b: Rect): (r: Rect)
    ensures Covers(r, a) && Covers(r, b)
    ensures (r.startX == a.startX || r.startX == b.startX) && (r.endX == a.endX || r.endX == b.endX)
    ensures (r.startY == a.startY || r.startY == b.startY) && (r.endY == a.endY || r.endY == b.endY)
  {
    Rect(if a.startX <= b.startX then a.startX else b.startX,
         if a.endX >= b.endX then a.endX else b.endX,
         if a.startY <= b.startY then a.startY else b.startY,
         if a.endY >= b.endY then a.endY else b.endY)
  }

  /** Every cell of `inner` (taken as the ranges start..end) is a cell of `outer`. */
  predicate Covers(outer: Rect, inner: Rect)
  {
    outer.startX <= inner.startX && inner.endX <= outer.endX &&
    outer.startY <= inner.startY && inner.endY <= outer.endY
  }

  /**
   * The union covers both rectangles and is the least rectangle that does;
   * it does not depend on the order of its arguments, and a rectangle's
   * union with itself is the rectangle.
   */
  lemma RectUnionProperties(a: Rect, b: Rect, c: Rect)
    ensures Covers(RectUnion(a, b), a) && Covers(RectUnion(a, b), b)
    ensures Covers(c, a) && Covers(c, b) ==> Covers(c, RectUnion(a, b))
    ensures RectUnion(a, b) == RectUnion(b, a)
    ensures RectUnion(a, a) == a
  {
  }

  /** The region to repaint when the menu moves from the previous region (if any) to the current one. */
  function TransitionRedrawRegion(previous: Option<Rect>, current: Rect): (r: Rect)
    ensures previous.None? ==> r == current
    ensures previous.Some? ==> r == RectUnion(previous.value, current)
  {
    match previous
    case None => current
    case Some(prev) => RectUnion(prev, current)
  }

  /** What a menu draw depends on, as stored in the cache (MenuStaticKey). */
  datatype MenuStaticKey = MenuStaticKey(
    screenTag: string, title: string, subtitle: Option<string>, options: seq<string>,
    dangerOption: Option<nat>, termWidth: u16, termHeight: u16, language: nat, compact: bool)

  /** The same fields as handed in by a draw (MenuStaticView). */
  datatype MenuStaticView = MenuStaticView(
    screenTag: string, title: string, subtitle: Option<string>, options: seq<string>,
    dangerOption: Option<nat>, termWidth: u16, termHeight: u16, language: nat, compact: bool)

  function KeyMatchesView(key: MenuStaticKey, view: MenuStaticView): bool
  {
    && key.screenTag == view.screenTag
    && key.title == view.title
    && key.subtitle == view.subtitle
    && key.options == view.options
    && key.dangerOption == view.dangerOption
    && key.termWidth == view.termWidth
    && key.termHeight == view.termHeight
    && key.language == view.language
    && key.compact == view.compact
  }

  function KeyFromView(view: MenuStaticView): (key: MenuStaticKey)
    ensures KeyMatchesView(key, view)
  {
    MenuStaticKey(view.screenTag, view.title, view.subtitle, view.options, view.dangerOption,
                  view.termWidth, view.termHeight, view.language, view.compact)
  }

  /** A key matches a view exactly when it is the key made from that view. */
  lemma KeyMatchesIffFromView(key: MenuStaticKey, view: MenuStaticView)
    ensures KeyMatchesView(key, view) <==> key == KeyFromView(view)
  {
  }

  /** What a high-scores draw depends on (HighScoresStaticKey). */
  datatype HighScoresStaticKey = HighScoresStaticKey(
    highScores: Storage.HighScores, termWidth: u16, termHeight: u16, language: nat, compact: bool)

  class MenuRenderCaches {
    var menuKey: Option<MenuStaticKey>
    var menuSelected: Option<nat>
    var highScoresKey: Option<HighScoresStaticKey>
    var lastRegion: Option<Rect>

    /** The caches as first created: all empty. */
    constructor ()
      ensures menuKey.None? && menuSelected.None? && highScoresKey.None? && lastRegion.None?
    {
      menuKey := None;
      menuSelected := None;
      highScoresKey := None;
      lastRegion := None;
    }

    /** Returns the region to repaint, and remembers only the current region for next time. */
    method ClaimRedrawRegion(currentRegion: Rect) returns (redrawRegion: Rect)
      modifies this
      ensures redrawRegion == TransitionRedrawRegion(old(lastRegion), currentRegion)
      ensures lastRegion == Some(currentRegion)
      ensures menuKey == old(menuKey) && menuSelected == old(menuSelected) && highScoresKey == old(highScoresKey)
    {
      redrawRegion := TransitionRedrawRegion(lastRegion, currentRegion);
      lastRegion := Some(currentRegion);
    }

    /**
     * Decides between a full redraw (no cached key, or one that differs from
     * the view) and a partial one, which learns the previously selected row.
     * The new selection is always stored.
     */
    method MenuRedrawState(view: MenuStaticView, selectedOption: nat) returns (fullRedraw: bool, previousSelected: Option<nat>)
      modifies this
      ensures fullRedraw <==> old(menuKey).None? || old(menuKey).value != KeyFromView(view)
      ensures previousSelected == if fullRedraw then None else old(menuSelected)
      ensures menuKey == Some(KeyFromView(view))
      ensures menuSelected == Some(selectedOption)
      ensures highScoresKey == old(highScoresKey) && lastRegion == old(lastRegion)
    {
      KeyMatchesIffFromView(if menuKey.Some? then menuKey.value else KeyFromView(view), view);
      var keyChanged := !(menuKey.Some? && KeyMatchesView(menuKey.value, view));
      previousSelected := if keyChanged then None else menuSelected;
      if keyChanged {
        menuKey := Some(KeyFromView(view));
      }
      menuSelected := Some(selectedOption);
      fullRedraw := keyChanged;
    }

    /** A menu was drawn over the high-scores screen: forget the high-scores key only. */
    method MarkMenuDraw()
      modifies this
      ensures highScoresKey.None?
      ensures menuKey == old(menuKey) && menuSelected == old(menuSelected) && lastRegion == old(lastRegion)
    {
      highScoresKey := None;
    }

    /**
     * True when this exact high-scores screen is already on the terminal.
     * Otherwise the key is stored and the menu cache is emptied, since the
     * high-scores screen has painted over the menu.
     */
    method BeginHighScoresDraw(highScores: Storage.HighScores, termWidth: u16, termHeight: u16,
                               language: nat, compact: bool) returns (cached: bool)
      modifies this
      ensures var key := HighScoresStaticKey(highScores, termWidth, termHeight, language, compact);
              && (cached <==> old(highScoresKey) == Some(key))
              && highScoresKey == Some(key)
              && (cached ==> menuKey == old(menuKey) && menuSelected == old(menuSelected))
              && (!cached ==> menuKey.None? && menuSelected.None?)
              && lastRegion == old(lastRegion)
    {
      var staticKey := HighScoresStaticKey(highScores, termWidth, termHeight, language, compact);
      if highScoresKey == Some(staticKey) {
        return true;
      }
      highScoresKey := Some(staticKey);
      menuKey := None;
      menuSelected := None;
      return false;
    }

    /** Forgets everything, so the next draw is a full one over an unclaimed region. */
    method InvalidateMenuRenderCaches()
      modifies this
      ensures menuKey.None? && menuSelected.None? && highScoresKey.None? && lastRegion.None?
    {
      menuKey := None;
      menuSelected := None;
      highScoresKey := None;
      lastRegion := None;
    }
  }

  /**
   * The menu, high-scores, menu sequence of render/menu.rs's test: the first
   * claim repaints the menu region, each later one the union with the
   * region before it.
   */
  method ClaimSequence(mainRegion: Rect, highScoresRegion: Rect) returns (first: Rect, second: Rect, third: Rect)
    ensures first == mainRegion
    ensures second == RectUnion(mainRegion, highScoresRegion)
    ensures third == RectUnion(highScoresRegion, mainRegion)
  {
    var caches := new MenuRenderCaches();
    caches.InvalidateMenuRenderCaches();
    first := caches.ClaimRedrawRegion(mainRegion);
    second := caches.ClaimRedrawRegion(highScoresRegion);
    third := caches.ClaimRedrawRegion(mainRegion);
    caches.InvalidateMenuRenderCaches();
  }

  /** The concrete regions of that test. */
  method ClaimSequenceExample() returns (first: Rect, second: Rect, third: Rect)
    ensures first == Rect(40, 90, 6, 24)
    ensures second == Rect(20, 110, 5, 25)
    ensures third == Rect(20, 110, 5, 25)
  {
    first, second, third := ClaimSequence(Rect(40, 90, 6, 24), Rect(20, 110, 5, 25));
  }
}
