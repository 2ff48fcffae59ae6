/** TikzPlot: the older single-axis front end. It keeps the histograms in the
    order they were added, the axis titles taken from the first histograms
    that have them, and a log mode per axis, and writes a histogram with a
    stricter bin-selection rule than PgfPlotsPlot. */
module LegacyPlot {
  import opened Wrappers
  import opened Text
  import opened RootData
  import opened Histogram
  import Plot

  // ---------------------------------------------------------------------------
  // PlotTH1

  /** Whether TikzPlot::PlotTH1 writes a coordinate for bin xbin: only when the
      bin and the bin before it are both non-empty, whatever the style. */
  predicate Shows(h: Series, xbin: nat)
    requires xbin >= 1
  {
    h.BinAt(xbin).content != 0 && h.BinAt(xbin - 1).content != 0
  }

  /** The bins among 1 .. hi - 1 that get a coordinate, in increasing order. */
  function Shown(h: Series, hi: nat): seq<nat>
  {
    if hi <= 1 then []
    else Shown(h, hi - 1) + (if Shows(h, hi - 1) then [hi - 1] else [])
  }

  /** Shown lists exactly the bins the selection rule keeps, each once, in
      increasing bin order. */
  lemma {:induction false} ShownExactly(h: Series, hi: nat)
    ensures forall x :: x in Shown(h, hi) <==> 1 <= x < hi && Shows(h, x)
    ensures forall i, j | 0 <= i < j < |Shown(h, hi)| :: Shown(h, hi)[i] < Shown(h, hi)[j]
  {
    if hi > 1 {
      var prev := Shown(h, hi - 1);
      ShownExactly(h, hi - 1);
      assert forall i | 0 <= i < |prev| :: prev[i] in prev;
    }
  }

  /** The first bin is written only when the underflow bin is non-empty too. */
  lemma FirstBinNeedsUnderflow(h: Series)
    requires h.NBins() >= 1
    ensures 1 in Shown(h, h.NBins() + 1) <==> h.bins[0].content != 0 && h.underflow.content != 0
  {
    ShownExactly(h, h.NBins() + 1);
  }

  /** The rule joins its two tests with "and" where PgfPlotsPlot::PlotTH1 joins
      them with "or": every bin written here is written there as well, for any
      style, and an isolated non-empty bin is written only there. */
  lemma ShownWithinPlotShown(style: string, h: Series, hi: nat)
    ensures forall i | 0 <= i < |Shown(h, hi)| :: Shown(h, hi)[i] in Plot.Shown(style, h, hi)
    ensures hi >= 2 && h.underflow.content == 0 && h.BinAt(1).content != 0 ==>
      1 !in Shown(h, hi) && 1 in Plot.Shown(style, h, hi)
  {
    ShownExactly(h, hi);
    Plot.ShownExactly(style, h, hi);
    forall i | 0 <= i < |Shown(h, hi)| ensures Shown(h, hi)[i] in Plot.Shown(style, h, hi) {
      assert Shown(h, hi)[i] in Shown(h, hi);
    }
  }

  /** What TikzPlot::PlotTH1 writes before the "};" trailer: the same style
      line as PgfPlotsPlot, and both edge points whenever there are no error
      bars, with no test of the last bin. */
  function Th1Head(h: Series, style: string): string
  {
    var errors := IncludeErrors(style);
    "\t\\addplot+[" + StyleText(style) + "]\n"
    + "\t\tcoordinates { "
    + (if errors then "" else LeftEdge(h))
    + Coordinates(h, Shown(h, h.NBins() + 1), errors)
    + (if errors then "" else RightEdge(h))
  }

  function Th1Text(h: Series, style: string): string
  {
    Th1Head(h, style) + "};\n\n"
  }

  /** TikzPlot::PlotTH1, returning what it streams. */
  method PlotTH1(h: Series, options: string) returns (out: string)
    ensures out == Th1Text(h, options)
  {
    out := WriteStyle(options);
    var includeErrors := Contains(options, "E");
    out := out + "\t\tcoordinates { ";
    ghost var start := out;
    if !includeErrors {
      out := out + LeftEdge(h);
    }
    assert out == start + (if includeErrors then "" else LeftEdge(h));
    var bins := WriteBins(h, includeErrors);
    out := out + bins;
    ghost var listed := out;
    if !includeErrors {
      out := out + RightEdge(h);
    }
    assert out == listed + (if !includeErrors then RightEdge(h) else "");
    out := out + "};\n\n";
  }

  /** One bin of the loop: its coordinate is appended exactly when the rule
      keeps it. */
  lemma ShownStep(h: Series, xbin: nat, errors: bool)
    requires xbin >= 1
    ensures Shows(h, xbin) ==>
      Coordinates(h, Shown(h, xbin + 1), errors) == Coordinates(h, Shown(h, xbin), errors) + BinCoordinate(h, xbin, errors)
    ensures !Shows(h, xbin) ==> Coordinates(h, Shown(h, xbin + 1), errors) == Coordinates(h, Shown(h, xbin), errors)
  {
    var shown := Shown(h, xbin);
    if Shows(h, xbin) {
      assert Shown(h, xbin + 1) == shown + [xbin];
      Plot.CoordinatesSnoc(h, shown, xbin, errors);
    } else {
      assert Shown(h, xbin + 1) == shown + [];
      assert shown + [] == shown;
    }
  }

  /** The bin loop of TikzPlot::PlotTH1. */
  method WriteBins(h: Series, includeErrors: bool) returns (out: string)
    ensures out == Coordinates(h, Shown(h, h.NBins() + 1), includeErrors)
  {
    out := "";
    var n := h.NBins();
    var xbin: nat := 1;
    NoneShownYet(h, includeErrors);
    while xbin <= n
      invariant 1 <= xbin <= n + 1
      invariant out == Coordinates(h, Shown(h, xbin), includeErrors)
    {
      out := WriteBin(h, xbin, includeErrors, out);
      xbin := xbin + 1;
    }
  }

  lemma NoneShownYet(h: Series, errors: bool)
    ensures Coordinates(h, Shown(h, 1), errors) == ""
  {
  }

  /** One pass of the bin loop. */
  method WriteBin(h: Series, xbin: nat, includeErrors: bool, before: string) returns (out: string)
    requires xbin >= 1 && before == Coordinates(h, Shown(h, xbin), includeErrors)
    ensures out == Coordinates(h, Shown(h, xbin + 1), includeErrors)
  {
    ShownStep(h, xbin, includeErrors);
    out := before;
    if h.BinAt(xbin).content != 0 && h.BinAt(xbin - 1).content != 0 {
      out := out + BinCoordinate(h, xbin, includeErrors);
    }
  }

  // ---------------------------------------------------------------------------
  // Axis titles and log modes

  /** Lines 25-26 and 39-40: a title slot takes the histogram's title only
      while it is still empty. */
  function FillTitle(title: string, from: string): string
  {
    if title == "" then from else title
  }

  /** The titles of axis `axis` (0 for x, 1 for y) of the histograms, in order. */
  function TitlesOf(hists: seq<(Series, string)>, axis: nat): (r: seq<string>)
    ensures |r| == |hists|
    ensures forall i | 0 <= i < |hists| :: r[i] == (if axis == 0 then hists[i].0.xTitle else hists[i].0.yTitle)
  {
    if hists == [] then []
    else TitlesOf(hists[..|hists| - 1], axis) + [if axis == 0 then hists[|hists| - 1].0.xTitle else hists[|hists| - 1].0.yTitle]
  }

  /** The title slot after the titles ts were offered to it in order. */
  function Filled(ts: seq<string>): string
  {
    if ts == [] then "" else FillTitle(Filled(ts[..|ts| - 1]), ts[|ts| - 1])
  }

  /** The slot ends up with the first non-empty title offered, and stays
      empty only when every title offered was empty. */
  lemma {:induction false} FilledFirstNonEmpty(ts: seq<string>)
    ensures Filled(ts) == "" <==> forall i | 0 <= i < |ts| :: ts[i] == ""
    ensures forall i | 0 <= i < |ts| && ts[i] != "" && (forall j | 0 <= j < i :: ts[j] == "") :: Filled(ts) == ts[i]
  {
    if ts != [] {
      var init := ts[..|ts| - 1];
      FilledFirstNonEmpty(init);
      assert forall i | 0 <= i < |init| :: init[i] == ts[i];
    }
  }

  /** A slot that holds a title keeps it, whatever is offered later. */
  lemma {:induction false} FilledSticks(ts: seq<string>, more: seq<string>)
    requires Filled(ts) != ""
    ensures Filled(ts + more) == Filled(ts)
    decreases |more|
  {
    if more == [] {
      assert ts + more == ts;
    } else {
      var init := more[..|more| - 1];
      assert (ts + more)[..|ts + more| - 1] == ts + init;
      FilledSticks(ts, init);
    }
  }

  /** TikzPlot::SetLog on the three log-mode slots: None where logMode_.at
      throws (a negative axis converts to a huge index), the slots unchanged
      for an axis of 3 or more (only the error message), and otherwise the one
      slot set. */
  function SetLogSpec(modes: seq<bool>, axis: int, logMode: bool): Option<seq<bool>>
    requires |modes| == 3
  {
    if axis >= 3 then Some(modes) else if axis < 0 then None else Some(modes[axis := logMode])
  }

  /** Only the slot named is changed, and one call fails exactly for a
      negative axis. */
  lemma SetLogSlots(modes: seq<bool>, axis: int, logMode: bool)
    requires |modes| == 3
    ensures SetLogSpec(modes, axis, logMode).None? <==> axis < 0
    ensures SetLogSpec(modes, axis, logMode).Some? ==>
      var r := SetLogSpec(modes, axis, logMode).value;
      |r| == 3 &&
      (forall k | 0 <= k < 3 && k != axis :: r[k] == modes[k]) &&
      (0 <= axis < 3 ==> r[axis] == logMode)
  {
  }

  /** The last call for an axis decides its mode. */
  lemma SetLogLastWins(modes: seq<bool>, axis: int, m1: bool, m2: bool)
    requires |modes| == 3 && axis >= 0
    ensures SetLogSpec(SetLogSpec(modes, axis, m1).value, axis, m2) == SetLogSpec(modes, axis, m2)
  {
    if axis < 3 {
      assert modes[axis := m1][axis := m2] == modes[axis := m2];
    }
  }

  /** The plot. The pairs of hists_ hold the histogram's values and its draw
      options; axisTitles_ and logMode_ are the fixed arrays of three. */
  class TikzPlot {
    var hists: seq<(Series, string)>
    const axisTitles: array<string>
    const logMode: array<bool>

    /** The x and y titles are those the histograms offered, first non-empty
        one first; the z title is never set. */
    ghost predicate Valid()
      reads this, axisTitles
    {
      axisTitles.Length == 3 && logMode.Length == 3 &&
      axisTitles[0] == Filled(TitlesOf(hists, 0)) &&
      axisTitles[1] == Filled(TitlesOf(hists, 1)) &&
      axisTitles[2] == ""
    }

    /** TikzPlot(): no histograms, empty titles, every log mode off. */
    constructor ()
      ensures Valid() && fresh(axisTitles) && fresh(logMode)
      ensures hists == [] && axisTitles[..] == ["", "", ""] && logMode[..] == [false, false, false]
    {
      hists := [];
      axisTitles := new string[3](_ => "");
      logMode := new bool[3](_ => false);
    }

    /** TikzPlot::Add(TH1*, options). */
    method Add(h: Series, options: string)
      requires Valid()
      modifies this, axisTitles
      ensures Valid()
      ensures hists == old(hists) + [(h, options)]
      ensures axisTitles[..] == [FillTitle(old(axisTitles[0]), h.xTitle), FillTitle(old(axisTitles[1]), h.yTitle), old(axisTitles[2])]
    {
      var entry := (h, options);
      TitlesSnoc(hists, entry);
      hists := hists + [entry];
      FillTitles(axisTitles, h.xTitle, h.yTitle);
    }

    /** TikzPlot::Add(TH2*, options): ignored, with an error message, once any
        histogram was added, so a 2-D histogram can only be the first one. */
    method Add2D(h: Series, options: string)
      requires Valid()
      modifies this, axisTitles
      ensures Valid()
      ensures old(hists) != [] ==> hists == old(hists) && axisTitles[..] == old(axisTitles[..])
      ensures old(hists) == [] ==>
        hists == [(h, options)] &&
        axisTitles[..] == [FillTitle(old(axisTitles[0]), h.xTitle), FillTitle(old(axisTitles[1]), h.yTitle), old(axisTitles[2])]
    {
      if hists != [] {
        return;
      }
      Add(h, options);
    }

    /** TikzPlot::SetLog: false where logMode_.at throws. */
    method SetLog(axis: int, mode: bool) returns (ok: bool)
      requires Valid()
      modifies logMode
      ensures Valid()
      ensures ok <==> SetLogSpec(old(logMode[..]), axis, mode).Some?
      ensures ok ==> logMode[..] == SetLogSpec(old(logMode[..]), axis, mode).value
      ensures !ok ==> logMode[..] == old(logMode[..])
    {
      if axis >= 3 {
        return true;
      }
      if axis < 0 {
        return false;
      }
      logMode[axis] := mode;
      ok := true;
    }
  }

  /** Lines 25-26: the x and the y title are each filled when still empty. */
  method FillTitles(titles: array<string>, xTitle: string, yTitle: string)
    requires titles.Length == 3
    modifies titles
    ensures titles[..] == [FillTitle(old(titles[0]), xTitle), FillTitle(old(titles[1]), yTitle), old(titles[2])]
  {
    ghost var x := FillTitle(titles[0], xTitle);
    ghost var y := FillTitle(titles[1], yTitle);
    ghost var z := titles[2];
    FillSlot(titles, 0, xTitle);
    FillSlot(titles, 1, yTitle);
    assert titles[..] == [x, y, z];
  }

  /** One title line of Add: the slot is assigned only while it is empty. */
  method FillSlot(titles: array<string>, i: nat, from: string)
    requires i < titles.Length
    modifies titles
    ensures titles[..] == old(titles[..])[i := FillTitle(old(titles[i]), from)]
  {
    if titles[i] == "" {
      titles[i] := from;
    }
  }

  lemma TitlesSnoc(hists: seq<(Series, string)>, entry: (Series, string))
    ensures Filled(TitlesOf(hists + [entry], 0)) == FillTitle(Filled(TitlesOf(hists, 0)), entry.0.xTitle)
    ensures Filled(TitlesOf(hists + [entry], 1)) == FillTitle(Filled(TitlesOf(hists, 1)), entry.0.yTitle)
  {
    assert (hists + [entry])[..|hists|] == hists;
  }
}
