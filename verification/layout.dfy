/**
 * Terminal layout of layout/mod.rs: where the board sits in the terminal,
 * the HUD rows below it, and the smallest terminal the game accepts.
 * Coordinates are 1-based terminal cells.
 */
module Layout {
  import opened Utils

  /** Rows reserved under the board for the HUD. */
  const HUD_BOTTOM_PADDING: int := 5

  /** The controls line of the HUD; the terminal must be at least this wide. */
  const CONTROLS_TEXT: string := "WASD/Arrows:Move P:Pause M:Mute SPACE:Menu Q:Quit"

  datatype MinSize = MinSize(width: u16, height: u16)

  datatype SizeCheck = SizeCheck(currentWidth: u16, currentHeight: u16, minimum: MinSize)

  /** The board placed in a terminal: its size and the terminal cell of board cell (1, 1). */
  datatype Layout = Layout(termWidth: u16, termHeight: u16, mapWidth: u16, mapHeight: u16,
                           originX: u16, originY: u16)
  {
    function MapRight(): int
    {
      originX + mapWidth - 1
    }

    function MapBottom(): int
    {
      originY + mapHeight - 1
    }

    /** The terminal cell showing board cell (x, y). */
    function BoardToScreen(x: int, y: int): (int, int)
    {
      (originX + x - 1, originY + y - 1)
    }

    function HudScoreY(): int
    {
      MapBottom() + 2
    }

    function HudInfoY(): int
    {
      MapBottom() + 3
    }

    function HudControlsY(): int
    {
      MapBottom() + HUD_BOTTOM_PADDING
    }
  }

  /** The terminal must hold the board and the controls line across, and the board plus the HUD down. */
  function MinTerminalSize(mapWidth: u16, mapHeight: u16): (r: MinSize)
    requires mapHeight + HUD_BOTTOM_PADDING <= U16_MAX
    ensures r.width >= mapWidth && r.width >= |CONTROLS_TEXT|
    ensures r.width == mapWidth || r.width == |CONTROLS_TEXT|
    ensures r.height == mapHeight + HUD_BOTTOM_PADDING
  {
    MinSize(if mapWidth >= |CONTROLS_TEXT| then mapWidth else |CONTROLS_TEXT|,
            mapHeight + HUD_BOTTOM_PADDING)
  }

  /** Centres the board, or reports the current and minimum sizes when the terminal is too small. */
  function ComputeLayout(termWidth: u16, termHeight: u16, mapWidth: u16, mapHeight: u16): (r: Result<Layout, SizeCheck>)
    requires mapHeight + HUD_BOTTOM_PADDING <= U16_MAX
    ensures r.Err? <==> termWidth < mapWidth || termWidth < |CONTROLS_TEXT| ||
                        termHeight < mapHeight + HUD_BOTTOM_PADDING
    ensures r.Err? ==> r.error == SizeCheck(termWidth, termHeight, MinTerminalSize(mapWidth, mapHeight))
    ensures r.Ok? ==> && r.value.termWidth == termWidth && r.value.termHeight == termHeight
                      && r.value.mapWidth == mapWidth && r.value.mapHeight == mapHeight
  {
    var minimum := MinTerminalSize(mapWidth, mapHeight);
    if termWidth < minimum.width || termHeight < minimum.height then
      Err(SizeCheck(termWidth, termHeight, minimum))
    else
      var totalHeight := mapHeight + HUD_BOTTOM_PADDING;
      var originX := (termWidth - mapWidth) / 2 + 1;
      var originY := (termHeight - totalHeight) / 2 + 1;
      Ok(Layout(termWidth, termHeight, mapWidth, mapHeight, originX, originY))
  }

  lemma ControlsTextWidth()
    ensures |CONTROLS_TEXT| == 49
  {
  }

  /**
   * An accepted layout is centred: the free columns left of the board and
   * right of it differ by at most one (the extra one on the right), and the
   * free rows above the board and below its HUD likewise.
   */
  lemma LayoutIsCentred(termWidth: u16, termHeight: u16, mapWidth: u16, mapHeight: u16)
    requires mapHeight + HUD_BOTTOM_PADDING <= U16_MAX
    requires ComputeLayout(termWidth, termHeight, mapWidth, mapHeight).Ok?
    ensures var l := ComputeLayout(termWidth, termHeight, mapWidth, mapHeight).value;
            var left := l.originX - 1;
            var right := termWidth - l.MapRight();
            var above := l.originY - 1;
            var below := termHeight - l.HudControlsY();
            && left <= right <= left + 1
            && above <= below <= above + 1
  {
  }

  /**
   * An accepted layout fits: the board starts at or after cell 1, ends
   * within the terminal, and the controls row is the last row it needs.
   */
  lemma LayoutFits(termWidth: u16, termHeight: u16, mapWidth: u16, mapHeight: u16)
    requires mapHeight + HUD_BOTTOM_PADDING <= U16_MAX
    requires ComputeLayout(termWidth, termHeight, mapWidth, mapHeight).Ok?
    ensures var l := ComputeLayout(termWidth, termHeight, mapWidth, mapHeight).value;
            && l.originX >= 1 && l.originY >= 1
            && l.MapRight() <= termWidth
            && l.HudControlsY() == l.MapBottom() + 5 <= termHeight
  {
  }

  /** Board cell (1, 1) is the origin and board cell (mapWidth, mapHeight) the bottom-right corner. */
  lemma BoardCorners(l: Layout)
    ensures l.BoardToScreen(1, 1) == (l.originX, l.originY)
    ensures l.BoardToScreen(l.mapWidth, l.mapHeight) == (l.MapRight(), l.MapBottom())
  {
  }

  /** The HUD rows come in order under the board: score, then info, then controls. */
  lemma HudRowsOrdered(l: Layout)
    ensures l.MapBottom() < l.HudScoreY() < l.HudInfoY() < l.HudControlsY()
  {
  }

  /** The two worked examples of layout/mod.rs's tests. */
  lemma LayoutExamples()
    ensures ComputeLayout(20, 10, 40, 20).Err?
    ensures var r := ComputeLayout(100, 40, 40, 20);
            && r.Ok? && r.value.originX == 31 && r.value.originY == 8
            && r.value.MapRight() == 70 && r.value.MapBottom() == 27
  {
  }
}
