/**
 * The text layout of `PdfExportUtil`: greedy word wrap of a table cell, the
 * wrapped height of a cell and the height of a table row, and the null case
 * of the number formatter.
 *
 * A font's `getStringWidth` is the parameter `measure` (in thousandths of the
 * font size); floating point is modelled by `real`.
 */
module PdfExport {
  import opened Optional

  /** `String.split(" ")` with every piece kept: one more piece than there are spaces. */
  function SplitAll(s: string): (r: seq<string>)
    ensures |r| >= 1
  {
    if s == [] then [""]
    else
      var r := SplitAll(s[..|s| - 1]);
      var c := s[|s| - 1];
      if c == ' ' then r + [""] else r[..|r| - 1] + [r[|r| - 1] + [c]]
  }

  /** Trailing empty pieces, as `split` removes them. */
  function DropTrailingEmpty(ws: seq<string>): (r: seq<string>)
    ensures |r| <= |ws| && r == ws[..|r|]
    ensures r != [] ==> r[|r| - 1] != ""
  {
    if ws != [] && ws[|ws| - 1] == "" then DropTrailingEmpty(ws[..|ws| - 1]) else ws
  }

  /**
   * `text.split(" ")`: a text without a space is its own single piece (so the
   * empty text gives one empty word); otherwise every piece, less the
   * trailing empty ones. Leading and inner empty pieces stay.
   */
  function JavaSplit(s: string): seq<string> {
    if ' ' !in s then [s] else DropTrailingEmpty(SplitAll(s))
  }

  /** Words joined with single spaces. */
  function Join(ws: seq<string>): string {
    if |ws| == 0 then ""
    else if |ws| == 1 then ws[0]
    else Join(ws[..|ws| - 1]) + " " + ws[|ws| - 1]
  }

  lemma JoinSnoc(ws: seq<string>, w: string)
    requires ws != []
    ensures Join(ws + [w]) == Join(ws) + " " + w
  {
    assert (ws + [w])[..|ws|] == ws;
  }

  /** Splitting on every space and joining back gives the text again. */
  lemma {:induction false} SplitAllJoins(s: string)
    ensures Join(SplitAll(s)) == s
  {
    if s != [] {
      var p, c := s[..|s| - 1], s[|s| - 1];
      var r := SplitAll(p);
      SplitAllJoins(p);
      assert s == p + [c];
      if c == ' ' {
        JoinSnoc(r, "");
      } else if |r| == 1 {
        assert SplitAll(s) == [r[0] + [c]];
      } else {
        var init := r[..|r| - 1];
        assert init + [r[|r| - 1]] == r;
        JoinSnoc(init, r[|r| - 1]);
        JoinSnoc(init, r[|r| - 1] + [c]);
      }
    }
  }

  /**
   * Without a leading space and without two spaces in a row, every piece but
   * the last is non-empty, and the last is empty exactly when the text is
   * empty or ends with a space.
   */
  lemma {:induction false} SplitAllPieces(s: string)
    requires s == [] || s[0] != ' '
    requires forall i :: 0 <= i < |s| - 1 ==> !(s[i] == ' ' && s[i + 1] == ' ')
    ensures var r := SplitAll(s);
            (forall i :: 0 <= i < |r| - 1 ==> r[i] != "") &&
            (r[|r| - 1] == "" <==> s == [] || s[|s| - 1] == ' ')
  {
    if s != [] {
      var p := s[..|s| - 1];
      SplitAllPieces(p);
    }
  }

  /** A text with single spaces between non-empty words, and none at either end. */
  predicate SingleSpaced(s: string) {
    s != [] && s[0] != ' ' && s[|s| - 1] != ' ' &&
    forall i :: 0 <= i < |s| - 1 ==> !(s[i] == ' ' && s[i + 1] == ' ')
  }

  /** A single-spaced text splits into non-empty words that join back to it. */
  lemma JavaSplitSingleSpaced(s: string)
    requires SingleSpaced(s)
    ensures var ws := JavaSplit(s);
            ws != [] && Join(ws) == s && forall i :: 0 <= i < |ws| ==> ws[i] != ""
  {
    if ' ' in s {
      SplitAllPieces(s);
      SplitAllJoins(s);
    }
  }

  /** The state of the wrap loop: the finished lines and the line being built. */
  datatype Wrapping = Wrapping(lines: seq<string>, line: string)

  /** The rendered width of `s` stays within `width`. */
  predicate Fits(s: string, measure: string -> real, fontSize: int, width: real) {
    !(measure(s) / 1000.0 * (fontSize as real) > width)
  }

  /**
   * One word: it goes on the current line when the widened line fits, or when
   * the line is still empty; otherwise the line is finished and the word
   * starts the next one.
   */
  function WrapStep(w: Wrapping, word: string, measure: string -> real, fontSize: int, width: real): Wrapping {
    var test := if |w.line| == 0 then word else w.line + " " + word;
    if !Fits(test, measure, fontSize, width) && |w.line| > 0 then Wrapping(w.lines + [w.line], word)
    else Wrapping(w.lines, test)
  }

  /** The loop over the words; the finished lines are never empty. */
  function Wrap(words: seq<string>, measure: string -> real, fontSize: int, width: real): (r: Wrapping)
    ensures forall i :: 0 <= i < |r.lines| ==> r.lines[i] != ""
  {
    if words == [] then Wrapping([], "")
    else WrapStep(Wrap(words[..|words| - 1], measure, fontSize, width), words[|words| - 1], measure, fontSize, width)
  }

  /** The lines after the loop: the line being built is kept when it is not empty. */
  function Flush(w: Wrapping): seq<string> {
    if |w.line| > 0 then w.lines + [w.line] else w.lines
  }

  /** `wrapText`: a null text is one empty line; otherwise the greedy wrap of its words. */
  function WrapText(text: Option<string>, measure: string -> real, fontSize: int, width: real): (r: seq<string>)
    ensures text.None? ==> r == [""]
    ensures text.Some? ==> forall i :: 0 <= i < |r| ==> r[i] != ""
  {
    match text
    case None => [""]
    case Some(t) => Flush(Wrap(JavaSplit(t), measure, fontSize, width))
  }

  /** An empty text produces no line at all. */
  lemma EmptyTextHasNoLines(measure: string -> real, fontSize: int, width: real)
    ensures WrapText(Some(""), measure, fontSize, width) == []
  {
    var words: seq<string> := [""];
    assert JavaSplit("") == words;
    assert words[..0] == [];
    assert Wrap(words, measure, fontSize, width) == WrapStep(Wrapping([], ""), "", measure, fontSize, width);
  }

  /** A line is finished exactly when the next word would make it too wide and it is not empty. */
  lemma WrapStepBreaks(w: Wrapping, word: string, measure: string -> real, fontSize: int, width: real)
    ensures var n := WrapStep(w, word, measure, fontSize, width);
            (|n.lines| > |w.lines|) <==> |w.line| > 0 && !Fits(w.line + " " + word, measure, fontSize, width)
    ensures var n := WrapStep(w, word, measure, fontSize, width);
            |n.lines| > |w.lines| ==> n.lines == w.lines + [w.line] && n.line == word
  {
  }

  /** After a non-empty run of non-empty words, the lines and the line being built join back to the words. */
  lemma {:induction false} WrapJoins(words: seq<string>, measure: string -> real, fontSize: int, width: real)
    requires words != []
    requires forall i :: 0 <= i < |words| ==> words[i] != ""
    ensures var w := Wrap(words, measure, fontSize, width);
            w.line != "" && Join(w.lines + [w.line]) == Join(words)
  {
    var n := |words|;
    var init, word := words[..n - 1], words[n - 1];
    if n == 1 {
      assert Wrap(init, measure, fontSize, width) == Wrapping([], "");
    } else {
      WrapJoins(init, measure, fontSize, width);
      var w := Wrap(init, measure, fontSize, width);
      JoinSnoc(init, word);
      assert words == init + [word];
      var test := w.line + " " + word;
      if !Fits(test, measure, fontSize, width) {
        JoinSnoc(w.lines + [w.line], word);
      } else if w.lines == [] {
        assert Join([test]) == test;
      } else {
        JoinSnoc(w.lines, w.line);
        JoinSnoc(w.lines, test);
        assert w.lines + [w.line] + [word] == (w.lines + [w.line]) + [word];
      }
    }
  }

  /** No word is lost or reordered: a single-spaced text wraps into lines that join back to it. */
  lemma WrapRoundTrip(s: string, measure: string -> real, fontSize: int, width: real)
    requires SingleSpaced(s)
    ensures Join(WrapText(Some(s), measure, fontSize, width)) == s
  {
    JavaSplitSingleSpaced(s);
    WrapJoins(JavaSplit(s), measure, fontSize, width);
  }

  /**
   * The round trip over every text without a leading space and without two
   * spaces in a row: the lines join back to the words `split` keeps, which
   * is the text less a trailing space (`split` drops the empty last piece).
   */
  lemma WrapKeepsWords(s: string, measure: string -> real, fontSize: int, width: real)
    requires s == [] || s[0] != ' '
    requires forall i :: 0 <= i < |s| - 1 ==> !(s[i] == ' ' && s[i + 1] == ' ')
    ensures Join(WrapText(Some(s), measure, fontSize, width)) == Join(JavaSplit(s))
    ensures Join(WrapText(Some(s), measure, fontSize, width)) ==
            if s != [] && s[|s| - 1] == ' ' then s[..|s| - 1] else s
  {
    if s == [] {
      EmptyTextHasNoLines(measure, fontSize, width);
      assert JavaSplit(s) == [""];
    } else if s[|s| - 1] != ' ' {
      WrapRoundTrip(s, measure, fontSize, width);
      JavaSplitSingleSpaced(s);
    } else {
      var p := s[..|s| - 1];
      assert s == p + [' '];
      assert SingleSpaced(p);
      var ws := SplitAll(p);
      SplitAllPieces(p);
      SplitAllJoins(p);
      assert SplitAll(s) == ws + [""];
      assert ws[|ws| - 1] != "" && DropTrailingEmpty(ws) == ws;
      assert (ws + [""])[..|ws|] == ws;
      assert DropTrailingEmpty(ws + [""]) == ws;
      assert s[|s| - 1] in s;
      WrapJoins(ws, measure, fontSize, width);
    }
  }

  /** Every line fits the width, or is one word placed alone on its line. */
  lemma {:induction false} WrapFitsOrSingleWord(words: seq<string>, measure: string -> real, fontSize: int, width: real)
    ensures var w := Wrap(words, measure, fontSize, width);
            forall l :: l in Flush(w) ==> Fits(l, measure, fontSize, width) || l in words
  {
    if words != [] {
      var n := |words|;
      var init, word := words[..n - 1], words[n - 1];
      WrapFitsOrSingleWord(init, measure, fontSize, width);
      var w := Wrap(init, measure, fontSize, width);
      assert forall l :: l in init ==> l in words;
      assert forall l :: l in w.lines ==> l in Flush(w);
      if |w.line| > 0 {
        assert w.line in Flush(w);
      }
    }
  }

  /** The height of `lines` lines of text: each is 1.2 times the font size. */
  function LinesHeight(lines: int, fontSize: int): real {
    (lines as real) * 1.2 * (fontSize as real)
  }

  /** `getWrappedTextHeight`: the height of the lines the cell wraps into. */
  function WrappedTextHeight(text: Option<string>, measure: string -> real, fontSize: int, width: real): real {
    LinesHeight(|WrapText(text, measure, fontSize, width)|, fontSize)
  }

  /** The wrap never makes more lines than there are words. */
  lemma {:induction false} WrapLineCount(words: seq<string>, measure: string -> real, fontSize: int, width: real)
    ensures var w := Wrap(words, measure, fontSize, width);
            |w.lines| + (if |w.line| > 0 then 1 else 0) <= |words|
  {
    if words != [] {
      WrapLineCount(words[..|words| - 1], measure, fontSize, width);
    }
  }

  /** More lines are never less high. */
  lemma ScaleLines(k: int, n: int, fontSize: int)
    requires 0 <= k <= n && fontSize >= 0
    ensures LinesHeight(k, fontSize) <= LinesHeight(n, fontSize)
  {
    var a, d, f := (k as real) * 1.2, ((n - k) as real) * 1.2, fontSize as real;
    assert (n as real) * 1.2 == a + d;
    assert (a + d) * f == a * f + d * f;
    assert d * f >= 0.0;
  }

  /** A single-spaced text wraps into at least one line and at most one line per word. */
  lemma WrapTextLineBounds(s: string, measure: string -> real, fontSize: int, width: real)
    requires SingleSpaced(s)
    ensures 1 <= |WrapText(Some(s), measure, fontSize, width)| <= |JavaSplit(s)|
  {
    JavaSplitSingleSpaced(s);
    WrapJoins(JavaSplit(s), measure, fontSize, width);
    WrapLineCount(JavaSplit(s), measure, fontSize, width);
  }

  /**
   * A cell of single-spaced text is at least one line high and at most one
   * line per word high.
   */
  lemma WrappedHeightBounds(s: string, measure: string -> real, fontSize: int, width: real)
    requires SingleSpaced(s) && fontSize >= 0
    ensures LinesHeight(1, fontSize) <= WrappedTextHeight(Some(s), measure, fontSize, width)
    ensures WrappedTextHeight(Some(s), measure, fontSize, width) <= LinesHeight(|JavaSplit(s)|, fontSize)
  {
    WrapTextLineBounds(s, measure, fontSize, width);
    var lines := |WrapText(Some(s), measure, fontSize, width)|;
    ScaleLines(1, lines, fontSize);
    ScaleLines(lines, |JavaSplit(s)|, fontSize);
  }

  /** A null cell is one line high; an empty one has no height. */
  lemma WrappedHeightEdges(measure: string -> real, fontSize: int, width: real)
    ensures WrappedTextHeight(None, measure, fontSize, width) == 1.2 * (fontSize as real)
    ensures WrappedTextHeight(Some(""), measure, fontSize, width) == 0.0
  {
    EmptyTextHasNoLines(measure, fontSize, width);
  }

  /**
   * `getRowHeightForWrappedText`: the tallest wrapped cell, but never less
   * than `minHeight`. Cells are measured in Helvetica (`measure`).
   */
  method RowHeight(row: seq<Option<string>>, colWidths: seq<real>, minHeight: real,
                   measure: string -> real, fontSize: int)
    returns (max: real)
    requires |row| <= |colWidths|
    ensures max >= minHeight
    ensures forall i :: 0 <= i < |row| ==> max >= WrappedTextHeight(row[i], measure, fontSize, colWidths[i])
    ensures max == minHeight ||
            exists i :: 0 <= i < |row| && max == WrappedTextHeight(row[i], measure, fontSize, colWidths[i])
  {
    max := minHeight;
    ghost var tallest := -1;  // the cell `max` was taken from, if any
    for i := 0 to |row|
      invariant max >= minHeight
      invariant forall k :: 0 <= k < i ==> max >= WrappedTextHeight(row[k], measure, fontSize, colWidths[k])
      invariant tallest == -1 ==> max == minHeight
      invariant tallest != -1 ==> 0 <= tallest < i && max == WrappedTextHeight(row[tallest], measure, fontSize, colWidths[tallest])
    {
      var h := WrappedTextHeight(row[i], measure, fontSize, colWidths[i]);
      if h > max {
        max, tallest := h, i;
      }
    }
  }

  /** One iteration of the `wrapText` loop: measure the widened line, then break or append. */
  method WrapWord(lines: seq<string>, line: string, word: string, measure: string -> real, fontSize: int, width: real)
    returns (lines': seq<string>, line': string)
    ensures Wrapping(lines', line') == WrapStep(Wrapping(lines, line), word, measure, fontSize, width)
  {
    var testLine := if |line| == 0 then word else line + " " + word;
    var size := measure(testLine) / 1000.0 * (fontSize as real);
    if size > width && |line| > 0 {
      lines', line' := lines + [line], word;
    } else {
      lines', line' := lines, line;
      if |line'| > 0 {
        line' := line' + " ";
      }
      line' := line' + word;
      assert line' == testLine;
    }
  }

  /**
   * The loop of `wrapText` itself: a `StringBuilder` line and a growing list
   * of finished lines.
   */
  method WrapTextLoop(text: Option<string>, measure: string -> real, fontSize: int, width: real)
    returns (lines: seq<string>)
    ensures lines == WrapText(text, measure, fontSize, width)
  {
    if text.None? {
      return [""];
    }
    var words := JavaSplit(text.value);
    var line := "";
    lines := [];
    for i := 0 to |words|
      invariant Wrapping(lines, line) == Wrap(words[..i], measure, fontSize, width)
    {
      assert words[..i + 1][..i] == words[..i];
      lines, line := WrapWord(lines, line, words[i], measure, fontSize, width);
    }
    assert words[..|words|] == words;
    if |line| > 0 {
      lines := lines + [line];
    }
  }

  /** `formatDouble`: a missing value prints as the empty string; `format` is `String.format("%.2f", d)`. */
  function FormatDouble(d: Option<real>, format: real -> string): (r: string)
    ensures d.None? ==> r == ""
    ensures d.Some? ==> r == format(d.value)
  {
    if d.Some? then format(d.value) else ""
  }
}
