/** The text that PgfPlotsPlot::PlotTH1 and TikzPlot::PlotTH1 both write for a
    one-dimensional histogram: the ROOT draw-option flags, the style of the
    \addplot command and the coordinate of one bin. The two callers differ only
    in which bins and edges they emit. */
module Histogram {
  import opened Text
  import opened RootData

  /** ROOT draw option E: draw error bars. */
  predicate IncludeErrors(style: string)
  {
    Contains(style, "E")
  }

  /** ROOT draw option E1: error bars with end marks, markers shown. */
  predicate ErrorMarks(style: string)
  {
    Contains(style, "E1")
  }

  /** E1 contains E, so asking for error marks always turns error bars on. */
  lemma ErrorMarksIncludeErrors(style: string)
    requires ErrorMarks(style)
    ensures IncludeErrors(style)
  {
    assert "E1" == "E" + "1";
    ContainsLonger(style, "E", "1");
  }

  lemma ErrorMarksExample()
    ensures IncludeErrors("E") && !ErrorMarks("E")
  {
    assert OccursAt("E", "E", 0);
    assert !OccursAt("E", "E1", 0);
  }

  const ConstPlot := "const plot, no marks"
  const NoMarkers := "scatter, mark=none, "
  const OnlyMarks := "only marks, "
  const ErrorBars := "error bars/.cd, y dir=both, y explicit, x dir=both, x explicit"
  const NoErrorMark := ", error mark = none"

  /** The options of the \addplot command: a constant (step) plot without E;
      marker-less error bars without end marks for E; error bars with end marks
      and markers for E1. */
  function StyleText(style: string): string
  {
    if !IncludeErrors(style) then ConstPlot
    else if ErrorMarks(style) then OnlyMarks + ErrorBars
    else NoMarkers + OnlyMarks + ErrorBars + NoErrorMark
  }

  /** The opening line, written piece by piece as the C++ streams it. */
  method WriteStyle(style: string) returns (out: string)
    ensures out == "\t\\addplot+[" + StyleText(style) + "]\n"
  {
    var includeErrors := false;
    var errorMarks := false;
    if Contains(style, "E") {
      includeErrors := true;
    }
    if Contains(style, "E1") {
      ErrorMarksIncludeErrors(style);
      errorMarks := true;
    }
    var text := "";
    if includeErrors {
      if !errorMarks {
        text := text + NoMarkers;
      }
      text := text + OnlyMarks;
      text := text + ErrorBars;
      if !errorMarks {
        text := text + NoErrorMark;
      }
    } else {
      text := text + ConstPlot;
    }
    assert text == StyleText(style);
    out := "\t\\addplot+[" + text + "]\n";
  }

  /** The coordinate of bin xbin: its center and an error offset with error
      bars, its low edge without. GetBinWidth / 2 is integer halving here. */
  function BinCoordinate(h: Series, xbin: nat, errors: bool): string
  {
    var b := h.BinAt(xbin);
    "(" + Encode(if errors then b.center else b.lowEdge) + "," + Encode(b.content) + ") "
    + (if errors then " +- (" + Encode(b.width / 2) + "," + Encode(b.error) + ") " else "")
  }

  /** The coordinates of the bins xs, in the order of xs. */
  function Coordinates(h: Series, xs: seq<nat>, errors: bool): string
  {
    if xs == [] then "" else Coordinates(h, xs[..|xs| - 1], errors) + BinCoordinate(h, xs[|xs| - 1], errors)
  }

  /** The extra point at the low edge of bin 1 with content 0. */
  function LeftEdge(h: Series): string
  {
    "(" + Encode(h.BinAt(1).lowEdge) + ",0) "
  }

  /** The extra point at the high edge of bin N with content 0. */
  function RightEdge(h: Series): string
  {
    var b := h.BinAt(h.NBins());
    "(" + Encode(b.lowEdge + b.width) + "," + Encode(0) + ") "
  }
}
