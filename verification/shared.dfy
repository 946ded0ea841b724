/**
 * Text helpers of render/shared.rs: display width, clipping a string to a
 * number of terminal columns, padding it with spaces, and centring.
 *
 * The width of one character is the parameter `w` (a terminal's column
 * count for it, 0 for characters without a width); the width of a string is
 * the sum over its characters.
 */
module Shared {
  import opened Utils

  /** The escape character that starts every ANSI control sequence. */
  const ESC: char := '\U{1B}'

  const ANSI_RESET: string := "\U{1B}[0m"
  const STYLE_MENU_OPTION: string := "\U{1B}[97m"
  const STYLE_MENU_OPTION_DANGER: string := "\U{1B}[91m"
  const STYLE_MENU_OPTION_SELECTED_MID: string := "\U{1B}[1;38;2;255;255;255;48;2;89;138;207m"
  const STYLE_MENU_OPTION_SELECTED_DANGER: string := "\U{1B}[1;97;41m"

  /** A block of terminal cells, both ends included. */
  datatype Rect = Rect(startX: u16, endX: u16, startY: u16, endY: u16)

  /** The first column of `content` columns centred in `total` (saturating subtraction). */
  function CenterStart(total: u16, content: u16): (r: u16)
    ensures r >= 1
    ensures content >= total ==> r == 1
    ensures content <= total ==> r + content - 1 <= total
    ensures content <= total ==> var right := total - (r + content - 1); r - 1 <= right <= r
  {
    (if total >= content then total - content else 0) / 2 + 1
  }

  /** The number of columns `text` takes, without the u16 cast. */
  function TextWidth(text: string, w: char -> nat): nat
  {
    if |text| == 0 then 0 else w(text[0]) + TextWidth(text[1..], w)
  }

  lemma {:induction false} TextWidthConcat(a: string, b: string, w: char -> nat)
    ensures TextWidth(a + b, w) == TextWidth(a, w) + TextWidth(b, w)
    decreases |a|
  {
    if |a| == 0 {
      assert a + b == b;
    } else {
      assert (a + b)[1..] == a[1..] + b;
      TextWidthConcat(a[1..], b, w);
    }
  }

  /** display_width: the column count cast to u16, which keeps it modulo 2^16. */
  function DisplayWidth(text: string, w: char -> nat): (r: u16)
    ensures TextWidth(text, w) <= U16_MAX ==> r == TextWidth(text, w)
  {
    TextWidth(text, w) % 0x1_0000
  }

  /**
   * Reference definition of the clip: walk the characters with `used`
   * columns spent and stop at the first one of positive width that would
   * take the total past `maxWidth`.
   */
  function ClipFrom(text: string, maxWidth: nat, w: char -> nat, used: nat): string
  {
    if |text| == 0 then ""
    else if w(text[0]) > 0 && used + w(text[0]) > maxWidth then ""
    else [text[0]] + ClipFrom(text[1..], maxWidth, w, used + w(text[0]))
  }

  /** The clip of clip_by_display_width: a prefix of the text that fits in `maxWidth` columns. */
  function Clip(text: string, maxWidth: u16, w: char -> nat): (r: string)
    ensures |r| <= |text| && r == text[..|r|]
    ensures TextWidth(r, w) <= maxWidth
  {
    if maxWidth == 0 then "" else ClipFromBounds(text, maxWidth, w, 0); ClipFrom(text, maxWidth, w, 0)
  }

  /** clip_by_display_width: a loop that copies characters until the next one would overflow. */
  method ClipByDisplayWidth(text: string, maxWidth: u16, w: char -> nat) returns (clipped: string)
    ensures clipped == Clip(text, maxWidth, w)
  {
    if maxWidth == 0 {
      return "";
    }
    ghost var whole := ClipFrom(text, maxWidth, w, 0);
    assert whole == Clip(text, maxWidth, w);
    clipped := "";
    var widthUsed: nat := 0;
    var i := 0;
    while i < |text|
      invariant 0 <= i <= |text|
      invariant whole == clipped + ClipFrom(text[i..], maxWidth, w, widthUsed)
    {
      var ch := text[i];
      var chWidth := w(ch);
      if chWidth > 0 && widthUsed + chWidth > maxWidth {
        break;
      }
      assert text[i..][1..] == text[i + 1..];
      clipped := clipped + [ch];
      widthUsed := widthUsed + chWidth;
      i := i + 1;
    }
  }

  /** The clip is a prefix of the text and never wider than `maxWidth` (from `used` columns on). */
  lemma {:induction false} ClipFromBounds(text: string, maxWidth: nat, w: char -> nat, used: nat)
    requires used <= maxWidth
    ensures var c := ClipFrom(text, maxWidth, w, used);
            && |c| <= |text| && c == text[..|c|]
            && used + TextWidth(c, w) <= maxWidth
    decreases |text|
  {
    if |text| > 0 && !(w(text[0]) > 0 && used + w(text[0]) > maxWidth) {
      ClipFromBounds(text[1..], maxWidth, w, used + w(text[0]));
      var rest := ClipFrom(text[1..], maxWidth, w, used + w(text[0]));
      assert ([text[0]] + rest)[1..] == rest;
    }
  }

  /** The clip stops only at a character of positive width that would overflow. */
  lemma {:induction false} ClipFromStopsAtOverflow(text: string, maxWidth: nat, w: char -> nat, used: nat)
    requires used <= maxWidth
    ensures var c := ClipFrom(text, maxWidth, w, used);
            |c| < |text| ==> w(text[|c|]) > 0 && used + TextWidth(c, w) + w(text[|c|]) > maxWidth
    decreases |text|
  {
    if |text| > 0 && !(w(text[0]) > 0 && used + w(text[0]) > maxWidth) {
      ClipFromStopsAtOverflow(text[1..], maxWidth, w, used + w(text[0]));
      var rest := ClipFrom(text[1..], maxWidth, w, used + w(text[0]));
      assert ([text[0]] + rest)[1..] == rest;
    }
  }

  /** Text that fits is kept whole. */
  lemma {:induction false} ClipFromKeepsFittingText(text: string, maxWidth: nat, w: char -> nat, used: nat)
    requires used + TextWidth(text, w) <= maxWidth
    ensures ClipFrom(text, maxWidth, w, used) == text
    decreases |text|
  {
    if |text| > 0 {
      ClipFromKeepsFittingText(text[1..], maxWidth, w, used + w(text[0]));
      assert [text[0]] + text[1..] == text;
    }
  }

  /**
   * The promises of clip_by_display_width: nothing for width 0; otherwise a
   * prefix of the text no wider than `maxWidth`, the whole text when it
   * fits, and cut only before a character that would overflow.
   */
  lemma ClipProperties(text: string, maxWidth: u16, w: char -> nat)
    ensures maxWidth == 0 ==> Clip(text, maxWidth, w) == ""
    ensures var c := Clip(text, maxWidth, w);
            && |c| <= |text| && c == text[..|c|]
            && TextWidth(c, w) <= maxWidth
            && (maxWidth > 0 && TextWidth(text, w) <= maxWidth ==> c == text)
            && (maxWidth > 0 && |c| < |text| ==> w(text[|c|]) > 0 && TextWidth(c, w) + w(text[|c|]) > maxWidth)
  {
    if maxWidth > 0 {
      ClipFromBounds(text, maxWidth, w, 0);
      ClipFromStopsAtOverflow(text, maxWidth, w, 0);
      if TextWidth(text, w) <= maxWidth {
        ClipFromKeepsFittingText(text, maxWidth, w, 0);
      }
    }
  }

  function Spaces(n: nat): (r: string)
    ensures |r| == n && forall i :: 0 <= i < n ==> r[i] == ' '
  {
    if n == 0 then "" else [' '] + Spaces(n - 1)
  }

  /** pad_to_display_width: text narrower than `targetWidth` gets trailing spaces up to it. */
  function PadToDisplayWidth(text: string, targetWidth: u16, w: char -> nat): (r: string)
    ensures |r| >= |text| && r[..|text|] == text
    ensures forall i :: |text| <= i < |r| ==> r[i] == ' '
  {
    var current := DisplayWidth(text, w);
    if current >= targetWidth then text else text + Spaces(targetWidth - current)
  }

  lemma {:induction false} SpacesWidth(n: nat, w: char -> nat)
    requires w(' ') == 1
    ensures TextWidth(Spaces(n), w) == n
  {
    if n > 0 {
      SpacesWidth(n - 1, w);
      assert Spaces(n)[1..] == Spaces(n - 1);
    }
  }

  /**
   * Padding keeps the text as its prefix and adds exactly the missing
   * columns as spaces; a space one column wide makes the result exactly
   * `targetWidth` wide, and text already that wide is returned unchanged.
   */
  lemma PadProperties(text: string, targetWidth: u16, w: char -> nat)
    requires TextWidth(text, w) <= U16_MAX
    ensures var p := PadToDisplayWidth(text, targetWidth, w);
            && (TextWidth(text, w) >= targetWidth ==> p == text)
            && (TextWidth(text, w) < targetWidth ==>
                  p == text + Spaces(targetWidth - TextWidth(text, w)))
            && (w(' ') == 1 ==>
                  TextWidth(p, w) == if TextWidth(text, w) >= targetWidth then TextWidth(text, w) else targetWidth)
  {
    var p := PadToDisplayWidth(text, targetWidth, w);
    if TextWidth(text, w) < targetWidth {
      TextWidthConcat(text, Spaces(targetWidth - TextWidth(text, w)), w);
      if w(' ') == 1 {
        SpacesWidth(targetWidth - TextWidth(text, w), w);
      }
    }
  }
}
