/**
 * Menu rows of render/menu/menu_main.rs: the text of one option line, the
 * ANSI sequence that paints a highlighted row, the style a row is painted
 * in, and which rows a partial redraw repaints.
 *
 * A row is painted with SGR style sequences and positioned with CUP,
 * `ESC [ y ; x H` (sections 8.3.117 and 8.3.21 of ECMA-48).
 */
module MenuMain {
  import opened Utils
  import opened Shared

  /**
   * The style of the selected row: red for a dangerous option, the accent colour otherwise.
   * A lookup table, specified by its cases.
   */
  function SelectedOptionStyle(isDanger: bool): (r: string)
    ensures isDanger ==> r == STYLE_MENU_OPTION_SELECTED_DANGER
    ensures !isDanger ==> r == STYLE_MENU_OPTION_SELECTED_MID
  {
    if isDanger then STYLE_MENU_OPTION_SELECTED_DANGER else STYLE_MENU_OPTION_SELECTED_MID
  }

  function DigitChar(d: nat): char
    requires d < 10
  {
    '0' + d as char
  }

  /** The decimal digits of `n`, as `format!` prints an integer. */
  function DecimalString(n: nat): (r: string)
    ensures |r| >= 1
    ensures forall i :: 0 <= i < |r| ==> '0' <= r[i] <= '9'
    ensures |r| > 1 ==> r[0] != '0'
    decreases n
  {
    if n < 10 then [DigitChar(n)] else DecimalString(n / 10) + [DigitChar(n % 10)]
  }

  /** Reading digits back: the inverse of DecimalString. */
  function DecimalValue(s: string): nat
    requires forall i :: 0 <= i < |s| ==> '0' <= s[i] <= '9'
  {
    if |s| == 0 then 0 else DecimalValue(s[..|s| - 1]) * 10 + (s[|s| - 1] - '0') as nat
  }

  lemma {:induction false} DecimalRoundTrip(n: nat)
    ensures DecimalValue(DecimalString(n)) == n
    decreases n
  {
    var s := DecimalString(n);
    if n >= 10 {
      DecimalRoundTrip(n / 10);
      assert s[..|s| - 1] == DecimalString(n / 10);
    }
  }

  /** CUP: move the cursor to row y, column x. */
  function CursorTo(y: nat, x: nat): string
  {
    [ESC, '['] + DecimalString(y) + [';'] + DecimalString(x) + ['H']
  }

  /**
   * One option line: a marker ('>' on the selected row), the shortcut
   * "[k]" for the first six options, and the label clipped and then padded
   * to the label width.
   */
  function MenuOptionLineText(optionIndex: nat, option: string, selectedOption: nat,
                              rowLabelWidth: u16, w: char -> nat): (r: string)
    ensures |r| >= 6 && (r[0] == '>' <==> selectedOption == optionIndex)
  {
    var marker := if selectedOption == optionIndex then ">" else " ";
    var shortcut := if optionIndex < 6 then "[" + DecimalString(optionIndex + 1) + "]" else "[ ]";
    var paddedLabel := PadToDisplayWidth(Clip(option, rowLabelWidth, w), rowLabelWidth, w);
    marker + " " + shortcut + " " + paddedLabel
  }

  /**
   * The parts of a line: the marker shows selection, the shortcut number is
   * one more than the index (a single digit, since only indices below six
   * get one), and the label follows after four characters of prefix.
   */
  lemma MenuOptionLineShape(optionIndex: nat, option: string, selectedOption: nat,
                            rowLabelWidth: u16, w: char -> nat)
    ensures var line := MenuOptionLineText(optionIndex, option, selectedOption, rowLabelWidth, w);
            var padded := PadToDisplayWidth(Clip(option, rowLabelWidth, w), rowLabelWidth, w);
            && |line| == 6 + |padded|
            && (line[0] == '>' <==> selectedOption == optionIndex)
            && (line[0] == ' ' <==> selectedOption != optionIndex)
            && line[1] == ' ' && line[2] == '[' && line[4] == ']' && line[5] == ' '
            && (optionIndex < 6 ==> '1' <= line[3] <= '6' && DecimalValue([line[3]]) == optionIndex + 1)
            && (optionIndex >= 6 ==> line[3] == ' ')
            && line[6..] == padded
  {
    if optionIndex < 6 {
      DecimalRoundTrip(optionIndex + 1);
    }
  }

  /** Widths of the characters the menu snapshots use: one column each. */
  predicate AsciiWidths(w: char -> nat)
  {
    forall c :: ' ' <= c <= '~' ==> w(c) == 1
  }

  /** The snapshot of render/menu.rs: option 0 "Play", selected, label width 10. */
  lemma MenuOptionLineSnapshot(w: char -> nat)
    requires AsciiWidths(w)
    ensures MenuOptionLineText(0, "Play", 0, 10, w) == "> [1] Play      "
  {
    var clipped := Clip("Play", 10, w);
    assert TextWidth("Play", w) == 4 by {
      assert "Play"[1..] == "lay" && "lay"[1..] == "ay" && "ay"[1..] == "y" && "y"[1..] == "";
    }
    ClipProperties("Play", 10, w);
    assert clipped == "Play";
    assert Spaces(6) == "      ";
  }

  /**
   * build_highlight_row_ansi: fill the row with the style's background,
   * reset, then write the line clipped to the row's width in the same style.
   */
  function BuildHighlightRowAnsi(y: u16, x: u16, rowWidth: u16, rowStyle: string, line: string,
                                 w: char -> nat): string
  {
    rowStyle + CursorTo(y, x) + Spaces(rowWidth) + ANSI_RESET +
    rowStyle + CursorTo(y, x) + Clip(line, rowWidth, w) + ANSI_RESET
  }

  /**
   * The parts of a highlighted row: the style and cursor move, exactly
   * `rowWidth` spaces, a reset, the style and cursor move again, the line's
   * clip to the row width, and a final reset.
   */
  lemma HighlightRowSegments(y: u16, x: u16, rowWidth: u16, rowStyle: string, line: string, w: char -> nat)
    ensures var row := BuildHighlightRowAnsi(y, x, rowWidth, rowStyle, line, w);
            var lead := rowStyle + CursorTo(y, x);
            var n := |lead| + rowWidth + |ANSI_RESET| + |lead|;
            && |row| == n + |Clip(line, rowWidth, w)| + |ANSI_RESET|
            && row[..|lead|] == lead
            && row[|lead|..|lead| + rowWidth] == Spaces(rowWidth)
            && row[|lead| + rowWidth..n - |lead|] == ANSI_RESET
            && row[n - |lead|..n] == lead
            && row[n..|row| - |ANSI_RESET|] == Clip(line, rowWidth, w)
            && row[|row| - |ANSI_RESET|..] == ANSI_RESET
  {
    var lead := rowStyle + CursorTo(y, x);
    var row := BuildHighlightRowAnsi(y, x, rowWidth, rowStyle, line, w);
    HighlightRowIsConcat(y, x, rowWidth, rowStyle, line, w);
    SegmentsOfConcat(row, lead, Spaces(rowWidth), ANSI_RESET, lead, Clip(line, rowWidth, w));
  }

  lemma HighlightRowIsConcat(y: u16, x: u16, rowWidth: u16, rowStyle: string, line: string, w: char -> nat)
    ensures var lead := rowStyle + CursorTo(y, x);
            BuildHighlightRowAnsi(y, x, rowWidth, rowStyle, line, w) ==
            lead + Spaces(rowWidth) + ANSI_RESET + lead + Clip(line, rowWidth, w) + ANSI_RESET
  {
  }

  /**
   * The text written over the highlighted row is a prefix of the line no
   * wider than the row, and the whole line when it fits.
   */
  lemma HighlightRowText(y: u16, x: u16, rowWidth: u16, rowStyle: string, line: string, w: char -> nat)
    ensures var row := BuildHighlightRowAnsi(y, x, rowWidth, rowStyle, line, w);
            var n := 2 * |rowStyle + CursorTo(y, x)| + rowWidth + |ANSI_RESET|;
            var text := row[n..|row| - |ANSI_RESET|];
            && |text| <= |line| && text == line[..|text|]
            && TextWidth(text, w) <= rowWidth
            && (rowWidth > 0 && TextWidth(line, w) <= rowWidth ==> text == line)
  {
    HighlightRowSegments(y, x, rowWidth, rowStyle, line, w);
    ClipProperties(line, rowWidth, w);
  }

  /** The five leading segments of `a + b + c + d + e + ANSI_RESET`, recovered by slicing. */
  lemma SegmentsOfConcat(row: string, a: string, b: string, c: string, d: string, e: string)
    requires row == a + b + c + d + e + ANSI_RESET
    ensures var n := |a| + |b| + |c| + |d|;
            && |row| == n + |e| + |ANSI_RESET|
            && row[..|a|] == a && row[|a|..|a| + |b|] == b && row[|a| + |b|..n - |d|] == c
            && row[n - |d|..n] == d && row[n..|row| - |ANSI_RESET|] == e
            && row[|row| - |ANSI_RESET|..] == ANSI_RESET
  {
  }

  /** The selected-row snapshot of render/menu.rs: row 7, column 12, width 16, accent style. */
  lemma SelectedRowSnapshot(w: char -> nat)
    requires AsciiWidths(w)
    ensures BuildHighlightRowAnsi(7, 12, 16, SelectedOptionStyle(false), "> [1] Play", w) ==
            "\U{1B}[1;38;2;255;255;255;48;2;89;138;207m" + "\U{1B}[7;12H" + "                " + "\U{1B}[0m" +
            "\U{1B}[1;38;2;255;255;255;48;2;89;138;207m" + "\U{1B}[7;12H" + "> [1] Play" + "\U{1B}[0m"
  {
    AsciiFits("> [1] Play", 16, w);
    CursorSnapshot(7, 12, "\U{1B}[7;12H");
    assert Spaces(16) == "                ";
  }

  /** The danger-row snapshot of render/menu.rs: row 5, column 3, width 14, danger style. */
  lemma DangerRowSnapshot(w: char -> nat)
    requires AsciiWidths(w)
    ensures BuildHighlightRowAnsi(5, 3, 14, SelectedOptionStyle(true), "> [5] Reset", w) ==
            "\U{1B}[1;97;41m" + "\U{1B}[5;3H" + "              " + "\U{1B}[0m" +
            "\U{1B}[1;97;41m" + "\U{1B}[5;3H" + "> [5] Reset" + "\U{1B}[0m"
  {
    AsciiFits("> [5] Reset", 14, w);
    CursorSnapshot(5, 3, "\U{1B}[5;3H");
    assert Spaces(14) == "              ";
  }

  lemma CursorSnapshot(y: nat, x: nat, expected: string)
    requires (y, x, expected) == (7, 12, "\U{1B}[7;12H") || (y, x, expected) == (5, 3, "\U{1B}[5;3H")
    ensures CursorTo(y, x) == expected
  {
    if y == 7 {
      assert DecimalString(12) == "12";
    }
  }

  /** Printable ASCII text no longer than `maxWidth` characters survives the clip. */
  lemma {:induction false} AsciiFits(text: string, maxWidth: u16, w: char -> nat)
    requires AsciiWidths(w) && 0 < |text| <= maxWidth
    requires forall i :: 0 <= i < |text| ==> ' ' <= text[i] <= '~'
    ensures Clip(text, maxWidth, w) == text
  {
    AsciiWidth(text, w);
    ClipProperties(text, maxWidth, w);
  }

  lemma {:induction false} AsciiWidth(text: string, w: char -> nat)
    requires AsciiWidths(w)
    requires forall i :: 0 <= i < |text| ==> ' ' <= text[i] <= '~'
    ensures TextWidth(text, w) == |text|
    decreases |text|
  {
    if |text| > 0 {
      AsciiWidth(text[1..], w);
    }
  }

  /** The style of one row in draw_menu_option_row: a lookup table, specified by its cases. */
  function RowStyle(optionIndex: nat, selectedOption: nat, dangerOption: Option<nat>): (r: string)
    ensures selectedOption == optionIndex ==> r == SelectedOptionStyle(dangerOption == Some(optionIndex))
    ensures selectedOption != optionIndex && dangerOption == Some(optionIndex) ==> r == STYLE_MENU_OPTION_DANGER
    ensures selectedOption != optionIndex && dangerOption != Some(optionIndex) ==> r == STYLE_MENU_OPTION
  {
    var isSelected := selectedOption == optionIndex;
    var isDanger := dangerOption.Some? && dangerOption.value == optionIndex;
    if isSelected then SelectedOptionStyle(isDanger)
    else if isDanger then STYLE_MENU_OPTION_DANGER
    else STYLE_MENU_OPTION
  }

  /**
   * The rows a partial redraw repaints, in order: the previously selected
   * row when it is still an option, then the selected row when it is an
   * option and not the same row.
   */
  function PartialRedrawRows(previousSelected: Option<nat>, selectedOption: nat, optionCount: nat): (rows: seq<nat>)
    ensures forall i :: 0 <= i < |rows| ==> rows[i] < optionCount
    ensures |rows| <= 2 && (|rows| == 2 ==> rows[0] != rows[1])
    ensures previousSelected.Some? && previousSelected.value < optionCount <==>
              |rows| > 0 && previousSelected == Some(rows[0])
    ensures selectedOption < optionCount <==> selectedOption in rows
    ensures forall r :: r in rows ==> previousSelected == Some(r) || r == selectedOption
    ensures |rows| == 2 ==> rows[1] == selectedOption
  {
    var first := if previousSelected.Some? && previousSelected.value < optionCount then [previousSelected.value] else [];
    var second := if selectedOption < optionCount && previousSelected != Some(selectedOption) then [selectedOption] else [];
    first + second
  }
}
