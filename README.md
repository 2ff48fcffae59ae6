# root2tikz core in Dafny

root2tikz turns ROOT histograms and graphs into pgfplots/TikZ source text.
This project models the objects behind its pgfplots front end and proves
properties of them:

- **TikzOptions** (module `Options`) is the option store. It parses a
  comma-separated `key=value` string into a sorted map. A comma between the
  last `{` and the first `}` of the string does not split. Names and values are
  stripped of white space, and `emplace` never overwrites a name already present.
- **PgfPlotsPlot** (module `Plot`, with the shared histogram text in module
  `Histogram`) is one `\addplot` command for a 1-D histogram, a 2-D histogram or
  a graph. It covers the ROOT style flags (`E`, `E1`, `P`, `L`), the rule that
  picks which bins get a coordinate, and the nodes inserted after the
  coordinate list.
- **PgfPlotsLegend** (module `Legend`) is the `\legend` block and its style options.
- **PgfPlotsAxis** (module `Axis`) is an axis whose option map absorbs every
  plot attached to it:
  - labels are converted from the axis titles, and only when absent;
  - the colour bar is set up for 2-D histograms;
  - limits only widen;
  - the colour range is overwritten.
  It also covers `SetLog` and the text `Write` emits. The TLatex-to-LaTeX
  rewriter `GetLatexString` is in module `Latex`.
- **PgfPlotsGroupPlot** (module `Group`) is a group axis. It has a fixed
  `rows * columns` grid of sub-plot axes, each created the first time it is asked for.
- **TikzPicture** (module `Picture`) is the document. It holds the preamble,
  which grows by one library line per group plot, an optional colorbrewer
  palette, and the axes in the order they were added.
- **TikzPlot** (module `LegacyPlot`) is the older single-axis front end. It has a
  histogram list, axis titles taken from the first histograms that have them,
  a three-slot log-mode array, and its own, stricter bin-selection rule.

## Modelling choices

- **ROOT objects** are the value `RootData.Series`. It records which class the
  object is (1-D histogram, 2-D histogram, graph), the axis extents and titles,
  the content range GetMinimumAndMaximum reports, the bins (with ROOT's underflow
  bin 0 and overflow bin N + 1) and the graph points.
- **Numbers** are integers. `std::to_string` is the decimal `Text.Encode`.
  `std::stod` is `Text.Decode`: it skips leading white space, reads an optional
  sign and a run of digits, and fails when there are no digits. This is
  narrower than `stod`; "## Left out" lists the forms the two read differently.
- **Exceptions** become results:
  - `Option` results stand for the constructors that throw;
  - `TikzOptions::Add` returns `ok == false` and keeps the options emplaced
    before the failing token;
  - `PgfPlotsAxis::AddPlot` returns a `Status` (`Done`, `Thrown`, or
    `Diverges` where `GetLatexString` never returns) and keeps the updates
    made before that point.
- **`std::string::npos`** is `None`. Where the code adds one to `npos`, the
  result is 0, as the unsigned wrap-around gives.
- **Output.** Every `Write` returns the text it would stream.
- **Plot options text.** `TikzOptions::GetString`, which turns a plot's option
  map into text, is declared at include/TikzOptions.hpp:29 but defined in neither source/TikzOptions.cpp nor that header. It is a parameter `render`.
- **Class hierarchy.** The axis classes are one class `Axis.PgfPlotsAxis` with a
  constant `kind` in place of the virtual `EnvHeader`/`EnvFooter` and the
  `dynamic_cast`. The group plot owns such an axis of kind `GroupBase`.
- **Where the code and the documentation disagree**, the model follows the code:
  - the first value given for a name wins, within one string and across calls;
  - an empty segment, such as the one a trailing comma leaves, makes `Add` throw;
  - `SetLog` on an invalid axis changes nothing;
  - a palette is recognised when a set name occurs anywhere in it, not only at its start;
  - `TikzPlot` keeps a bin only when it and the bin before it are both
    non-empty. `PgfPlotsPlot` keeps a bin when either of them is non-empty.
  - `TikzPlot` always writes both edge points without error bars, while
    `PgfPlotsPlot` writes the right one only for a non-empty last bin.

## Model

| member | source | states |
|---|---|---|
| Options.Strip | source/TikzOptions.cpp:68-72 | fails exactly on an empty or all-white string (the out-of-range substr); otherwise the result starts and ends with a non-white character |
| Options.StripTrims | source/TikzOptions.cpp:68-72 | the stripped text occurs in the input with only white space before and after it, so only leading and trailing white space is removed |
| Options.StripIdempotent | source/TikzOptions.cpp:68-72 | stripping a stripped string changes nothing |
| Options.StripClean | source/TikzOptions.cpp:68-72 | text that already starts and ends with a non-white character is returned as it is |
| Options.ParseWithoutEquals | source/TikzOptions.cpp:54-60 | a token without `=` gives name == value == the stripped token, because npos + 1 wraps to 0; it fails only for an all-white token |
| Options.ParseAtFirstEquals | source/TikzOptions.cpp:54-60 | the token is cut at its first `=`; it parses exactly when both halves have a non-white character, and the name and value are the two stripped halves |
| Options.ParseKeepsLaterEquals | source/TikzOptions.cpp:55-57 | a value may itself contain `=`: `name=value` parses back to (name, value) for any clean value |
| Options.TokensJoin | source/TikzOptions.cpp:22-39 | the tokens Add cuts, joined back with commas, are the input string |
| Options.TokensCount | source/TikzOptions.cpp:22-39 | there is one token more than there are splitting commas |
| Options.TokensNoBrace | source/TikzOptions.cpp:23-29 | without a `{`, every comma splits: no token contains a comma |
| Options.CrossedBracesSplitEveryComma | source/TikzOptions.cpp:26-28 | when some `}` comes before some `{`, no comma is shielded, so braces protect nothing |
| Options.BracedTokens | source/TikzOptions.cpp:26-28 | `name={a,b,...}` is one token: its commas are shielded |
| Options.BracedValueIsOneOption | source/TikzOptions.cpp:16-40 | adding `name={a,b,...}` emplaces the single option (name, `{a,b,...}`) |
| Options.AddKeepsExisting | source/TikzOptions.cpp:32-39 | Add never removes or overwrites an entry already in the map, even when it throws |
| Options.AddFirstWins | source/TikzOptions.cpp:16-40 | Add of a non-empty string succeeds exactly when every token parses, and then the map is the old map joined with, for each new name, the value of its first occurrence |
| Options.EmplaceAllFirstWins | source/TikzOptions.cpp:32-39 | the same for any token sequence emplaced in order |
| Options.AddNewNamesBound | source/TikzOptions.cpp:22-39 | one Add inserts at most the number of splitting commas plus one new names |
| Options.TrailingCommaFails | source/TikzOptions.cpp:35-39 | a string ending in a splitting comma leaves an empty last token, so Add throws |
| Options.ParseAllFails | source/TikzOptions.cpp:32 | a single unparsable token anywhere makes the whole list fail |
| Options.TikzOptions.constructor | source/TikzOptions.cpp:3-7 | a fresh store is empty |
| Options.TikzOptions.Create | source/TikzOptions.cpp:3-7 | constructing from a string succeeds exactly when Add on the empty map succeeds, and holds its entries |
| Options.TikzOptions.Add | source/TikzOptions.cpp:16-40 | the loop leaves the map and the outcome that AddSpec gives for the old map (with "" a no-op), whose meaning the lemmas above state |
| Options.TikzOptions.IsDefined | source/TikzOptions.cpp:42-46 | true exactly when the name is a key; the map is not changed |
| Text.DecodeEncode | source/PgfPlotsAxis.cpp:54-55 | reading back a number written by to_string gives the number |
| Text.DecodeNonNumeric | source/PgfPlotsAxis.cpp:54 | Decode reads no number from text whose first character is not white space, a sign or a digit, which is where the model has stod throw |
| Text.SortedKeysOrder | include/TikzOptions.hpp:13 | the keys of a map are listed each once, in strictly increasing lexicographic order, as std::map iterates them |
| Text.LexLessTransitive | include/TikzOptions.hpp:13 | the key order is transitive (with LexLessTotal and LexLessIrreflexive, a strict total order) |
| Histogram.ErrorMarksIncludeErrors | source/PgfPlotsPlot.cpp:48-49 | the E1 flag implies the E flag |
| Histogram.ErrorMarksExample | source/PgfPlotsPlot.cpp:48-49 | style "E" turns error bars on without end marks |
| Histogram.WriteStyle | source/PgfPlotsPlot.cpp:54-70 | the opening `\addplot+[...]` line: a constant plot without E, marker-less bars without end marks for E, bars with end marks for E1; the same lines appear in source/TikzPlot.cpp:116-132 |
| Plot.ShownExactly | source/PgfPlotsPlot.cpp:79-81 | the bins written are exactly those in 1..N where E1 is given or the bin or its predecessor is non-empty, in increasing order |
| Plot.ErrorMarksShowAllBins | source/PgfPlotsPlot.cpp:81 | with E1 every one of the N bins is written |
| Plot.WriteBins | source/PgfPlotsPlot.cpp:79-89 | the bin loop writes the coordinates of exactly the selected bins, in order |
| Plot.PlotTH1 | source/PgfPlotsPlot.cpp:42-101 | the histogram text: style line, left edge point iff no error bars, the selected bins, right edge point iff no error bars and the last bin is non-empty, trailer; the options argument plays no part |
| Plot.PlotTGraph | source/PgfPlotsPlot.cpp:114-149 | the graph text: `only marks` iff no lines, `mark=none` iff no markers (an empty style meaning both), the options verbatim, one coordinate per point in index order |
| Plot.WriteGraphStyle | source/PgfPlotsPlot.cpp:120-135 | the flag decoding gives markers for P and lines for L, both for an empty style, and writes `only marks` exactly without lines and `mark=none` exactly without markers, then the options verbatim |
| Plot.NodesTextAppend | source/PgfPlotsPlot.cpp:157-160 | a node added later is written before every earlier node: the nodes come out in reverse order |
| Plot.NodePosBeforeTrailer | source/PgfPlotsPlot.cpp:157 | in a text ending with the `};` trailer, the insertion point is right after the closing brace |
| Plot.InsertNodes | source/PgfPlotsPlot.cpp:157-160 | the node loop leaves every node line at the single insertion point, latest first |
| Plot.PgfPlotsPlot.TextShape | source/PgfPlotsPlot.cpp:151-164 | Write's output is the plot text with the node lines between `}` and `;` |
| Plot.PgfPlotsPlot.Write | source/PgfPlotsPlot.cpp:151-164 | returns the plot text (histogram or graph) with the nodes inserted |
| Plot.PgfPlotsPlot.Create | source/PgfPlotsPlot.cpp:6-22 | both constructors throw for a null object or an unparsable options string, and otherwise hold the object, the style, the parsed options and no nodes |
| Plot.PgfPlotsPlot.AddNode | source/PgfPlotsPlot.cpp:24-28 | appends (label, options) after the earlier nodes |
| Legend.EntryLinesCount | source/PgfPlotsLegend.cpp:16-18 | one line per entry |
| Legend.PgfPlotsLegend.TextLineCount | source/PgfPlotsLegend.cpp:14-20 | the legend block has exactly one line per entry plus its opening and closing lines (an empty legend has just those two) |
| Legend.PgfPlotsLegend.Write | source/PgfPlotsLegend.cpp:11-22 | the header, each entry verbatim in braces in insertion order, the footer |
| Legend.PgfPlotsLegend.AddEntry | source/PgfPlotsLegend.cpp:7-9 | appends the entry after the earlier ones |
| Legend.PgfPlotsLegend.constructor | source/PgfPlotsLegend.cpp:3-5 | no entries and an empty style |
| Latex.HashTurn | source/PgfPlotsAxis.cpp:181-185 | one turn of the `#` loop either throws (a command that runs to the end of the string) or leaves a `$` at the resumption point, two characters longer |
| Latex.BraceTurn | source/PgfPlotsAxis.cpp:190-195 | one turn of the brace loop leaves a `$` after the closing brace, two characters longer, when it does not throw or run back |
| Latex.GetLatexString | source/PgfPlotsAxis.cpp:178-198 | the two loops compute LatexString: the converted text, a throw, or no return |
| Latex.ConvertHash | source/PgfPlotsAxis.cpp:181-185 | the in-place writes of one `#` turn give HashTurn |
| Latex.WrapBrace | source/PgfPlotsAxis.cpp:190-195 | the in-place writes of one brace turn give BraceTurn |
| Latex.ConvertedHasNoHash | source/PgfPlotsAxis.cpp:178-198 | when the conversion returns, its result contains no `#` |
| Latex.HashPassRemovesHash | source/PgfPlotsAxis.cpp:180-187 | the first loop, when it ends, leaves no `#` |
| Latex.BracePassKeepsNoHash | source/PgfPlotsAxis.cpp:189-196 | the second loop never brings a `#` back |
| Latex.PlainTextUnchanged | source/PgfPlotsAxis.cpp:178-198 | a string with neither `#` nor `{` is returned unchanged |
| Latex.CommandBeforeSpace | source/PgfPlotsAxis.cpp:180-187 | `#alpha x` becomes `$\alpha$ x` |
| Latex.TrailingCommandThrows | source/PgfPlotsAxis.cpp:184-185 | `#alpha` makes insert at npos throw |
| Latex.SuperscriptWrapped | source/PgfPlotsAxis.cpp:189-196 | `x^{2}` becomes `x$^{2}$` |
| Latex.BareBraceThrows | source/PgfPlotsAxis.cpp:191-192 | `{a}`, with no space, backslash, `^` or `_` before the brace, throws |
| Latex.SecondArgumentLoopsBack | source/PgfPlotsAxis.cpp:188-196 | `#frac{a}{b}` never returns: the second brace sends the search back before the previous `$` |
| Axis.PgfPlotsAxis.constructor | source/PgfPlotsAxis.cpp:3-7 | an axis of the given kind with the given options, no plots and no legend |
| Axis.PgfPlotsAxis.Create | source/PgfPlotsAxis.cpp:3-7 | the constructor throws exactly when the options string cannot be added, and otherwise holds its entries |
| Axis.PgfPlotsAxis.SetLegend | source/PgfPlotsAxis.cpp:9-11 | stores the legend and nothing else |
| Axis.PgfPlotsAxis.AddPlot | source/PgfPlotsAxis.cpp:17-94 | appends the plot and leaves the options and outcome AddPlotSpec gives, whose meaning the lemmas below state |
| Axis.AddPlotKeepsOthers | source/PgfPlotsAxis.cpp:17-94 | AddPlot touches only the label, colour bar, limit and colour range keys |
| Axis.AddPlotLabels | source/PgfPlotsAxis.cpp:39-44 | an existing label is never replaced; on return both labels exist, and an xlabel or ylabel that was absent is the braced conversion of the x or y title |
| Axis.AddPlotColorBar | source/PgfPlotsAxis.cpp:46-50 | view, colorbar and colorbar style are set only for a 2-D histogram without a colorbar style, the style label coming from the z title; otherwise they are unchanged |
| Axis.AddPlotRanges | source/PgfPlotsAxis.cpp:53-80 | on return each of xmin, xmax, ymin, ymax exists, reads as a number, reaches the plot's bound, never narrows the previous limit and is either the bound or the previous limit |
| Axis.AddPlotZMeta | source/PgfPlotsAxis.cpp:83-93 | a 2-D histogram overwrites point meta min/max with its content range and restrict z to domain* with `min:max`; other plots leave them alone |
| Axis.AddPlotReturns | source/PgfPlotsAxis.cpp:39-80 | AddPlot returns exactly when every title it converts converts and every existing non-empty limit is readable |
| Axis.LabelledReturns | source/PgfPlotsAxis.cpp:39-50 | the label and colour bar steps return exactly when the titles they need convert |
| Axis.UnreadableLimitThrows | source/PgfPlotsAxis.cpp:53-54 | a user limit `xmin=abc` makes stod throw |
| Axis.PaddingDirection | source/PgfPlotsAxis.cpp:68-71 | the 0.9 factor pulls a negative minimum inward, and the 1.1 factor pushes a maximum outward only when it is non-negative |
| Axis.PgfPlotsAxis.SetLog | source/PgfPlotsAxis.cpp:101-123 | the options become LogOptions of the old ones; plots and legend stay |
| Axis.LogOptionsEffect | source/PgfPlotsAxis.cpp:101-123 | axes 0, 1, 2 set their mode key to `log` or erase it, no other key changes, and any other axis changes nothing |
| Axis.LogKeysDistinct | source/PgfPlotsAxis.cpp:103-112 | the three axes have distinct mode keys |
| Axis.LogLastWins | source/PgfPlotsAxis.cpp:101-123 | of two SetLog calls on one axis, the second decides |
| Axis.WriteOptions | source/PgfPlotsAxis.cpp:136-138 | one `key=value,` line per option, in the map's key order |
| Axis.OptionLinesOrder | source/PgfPlotsAxis.cpp:136-138 | options come out sorted by key, not in the order given |
| Axis.PgfPlotsAxis.WriteOpening | source/PgfPlotsAxis.cpp:130-155 | header, options, the legend style block only for a legend with style options, the closing bracket, then the legend |
| Axis.PgfPlotsAxis.WriteRegisteredItems | source/PgfPlotsAxis.cpp:166-170 | the plots' texts in the order the plots were added |
| Axis.PgfPlotsAxis.Write | source/PgfPlotsAxis.cpp:129-160 | opening, plots, then the environment footer |
| Group.PgfPlotsGroupPlot.Create | source/PgfPlotsGroupPlot.cpp:5-10 | throws exactly when the options do not parse; otherwise `group style` is `{group size=R by C}` whatever the options said, and the grid has rows * columns (mod 2^32) empty cells |
| Group.CellCountWraps | source/PgfPlotsGroupPlot.cpp:9 | the unsigned product wraps: a 65536 by 65536 grid has no cells |
| Group.PgfPlotsGroupPlot.GetSubPlot | source/PgfPlotsGroupPlot.cpp:27-37 | an id outside the grid throws and changes nothing; otherwise the existing cell is returned, or an empty sub-plot is created there, and no other cell changes |
| Group.PgfPlotsGroupPlot.AddPlot | source/PgfPlotsGroupPlot.cpp:17-19 | only cell id changes, and it changes as that cell's AddPlot does: the plot is appended, the options follow AddPlotSpec, and the legend is kept (null for a cell created by the call); an id outside the grid throws |
| Group.PgfPlotsGroupPlot.WriteRegisteredItems | source/PgfPlotsGroupPlot.cpp:43-47 | the created cells' texts in index order |
| Group.CellsTextPopulated | source/PgfPlotsGroupPlot.cpp:44-46 | writing the grid is writing its created cells one after the other; an empty cell writes nothing |
| Group.EmptyCellsText | source/PgfPlotsGroupPlot.cpp:44-46 | a grid with no cell asked for writes no cell text |
| Group.PgfPlotsGroupPlot.Write | source/PgfPlotsAxis.cpp:129-160 | the group's header and options, the cells, the group's footer |
| Picture.TikzPicture.constructor | source/TikzPicture.cpp:7-11 | holds the options and the preamble, an empty palette and no axes |
| Picture.TikzPicture.AddAxis | source/TikzPicture.cpp:13-19 | appends an axis that is not a group plot's base axis, with no group beside it; the preamble is unchanged |
| Picture.TikzPicture.AddGroup | source/TikzPicture.cpp:13-19 | appends a group plot and one more groupplots library line to the preamble, once per group plot |
| Picture.TikzPicture.SetPalette | source/TikzPicture.cpp:26-41 | always stores the name; reports whether one of the eight set names occurs in it |
| Picture.PaletteExamples | source/TikzPicture.cpp:27-36 | `Set1` and `myDark2` are recognised, `Blues` is not |
| Picture.TikzPicture.Write | source/TikzPicture.cpp:47-75 | preamble, palette lines, the picture environment with the axes in insertion order; the options are never written |
| Picture.DocumentOpensWithPreamble | source/TikzPicture.cpp:57-59 | a non-empty preamble comes first, followed by a newline |
| Picture.DocumentOpensWithPalette | source/TikzPicture.cpp:61-64 | without a preamble, a palette makes the text start with the colorbrewer library line |
| Picture.DocumentBare | source/TikzPicture.cpp:57-72 | with neither, the text is just the picture environment around the axes |
| Picture.DocumentCloses | source/TikzPicture.cpp:66-72 | the text always ends with the axes and `\end{tikzpicture}` |
| LegacyPlot.TikzPlot.constructor | source/TikzPlot.cpp:13-17 | no histograms, empty titles, all three log modes off |
| LegacyPlot.TikzPlot.Add | source/TikzPlot.cpp:23-27 | appends (histogram, options); each of the x and y titles is filled from the histogram only while empty |
| LegacyPlot.TikzPlot.Add2D | source/TikzPlot.cpp:33-41 | a 2-D histogram after another histogram changes nothing; as the first item it is added as a 1-D one is |
| LegacyPlot.FillTitles | source/TikzPlot.cpp:25-26 | fills the x and y slots of the title array only when empty, leaving the z slot |
| LegacyPlot.FilledFirstNonEmpty | source/TikzPlot.cpp:25-26 | after a series of Adds a title is empty iff every histogram's was, and otherwise it is the first non-empty one |
| LegacyPlot.FilledSticks | source/TikzPlot.cpp:25-26 | once a title is set, later Adds never change it |
| LegacyPlot.TikzPlot.SetLog | source/TikzPlot.cpp:45-52 | axis 0-2 sets that slot only; an axis of 3 or more changes nothing; a negative axis is an out-of-range at() and changes nothing |
| LegacyPlot.SetLogSlots | source/TikzPlot.cpp:45-52 | only the named slot changes, to the new mode |
| LegacyPlot.SetLogLastWins | source/TikzPlot.cpp:51 | of two calls on one axis, the second decides |
| LegacyPlot.ShownExactly | source/TikzPlot.cpp:141-143 | the bins written are exactly those in 1..N where the bin and its predecessor are both non-empty, in increasing order |
| LegacyPlot.FirstBinNeedsUnderflow | source/TikzPlot.cpp:143 | bin 1 is written only when the underflow bin is non-empty too |
| LegacyPlot.ShownWithinPlotShown | source/TikzPlot.cpp:141-151 | every bin this rule writes is one PgfPlotsPlot also writes, and a non-empty first bin after an empty underflow shows they differ |
| LegacyPlot.PlotTH1 | source/TikzPlot.cpp:105-161 | style line, left edge point iff no error bars, the selected bins, right edge point iff no error bars whatever the last bin holds, trailer |

## Left out

- TikzPlot::Write is not modelled: it is file and stream plumbing around PlotTH1, and the axis limits it writes are always zero, since `axisLimits_` is only default-initialised and nothing assigns it.
- TikzPlot's `PlotTH2`, `SetRootRender`, `SetPalette`, `GetLatexString` and `LogModeOptions` are declared in its header but not defined, so they are not modelled; neither is the `TVirtualPad` constructor.
- The stand-alone scripts TikzTH1.C and TikzTh2.C and source/TikzTh2.cpp only print getter values, so they are not modelled; neither is the ROOT dictionary include/root2tikz_LinkDef.h.
- Streams, files and the `std::cerr` warnings are left out: each Write returns its text and a warning is at most a boolean result.
- Floating point is left out. Numbers are integers, `to_string`/`stod` are a decimal round trip, and the 0.9 and 1.1 factors truncate toward zero.
- Text.Decode: reads only an optional sign and decimal digits, while `std::stod` is `strtod`. So `stod` reads ".5" as 0.5, "inf", "infinity" and "nan" in any case as infinity or NaN, "1e3" as 1000 and "0x10" as 16, and it throws `std::out_of_range` for a value too large for a double. Decode rejects the first four forms, reads "1e3" as 1 and "0x10" as 0, and never reports out of range.
- Axis.AddPlotReturns, Axis.AddPlotRanges and Axis.PgfPlotsAxis.AddPlot: they inherit that difference. A user limit such as `xmin=.5` or `xmin=nan` is Thrown in the model, although source/PgfPlotsAxis.cpp:53-55 returns normally. A limit such as `xmin=1e3` is compared as 1, so the model can keep it where the source replaces it.
- The ROOT getters, GetMinimumAndMaximum and GetHist/GetGraph casts become values and the `kind` tag of `RootData.Series`.
- PgfPlotsAxis::PreprocessOptions is called by Write at source/PgfPlotsAxis.cpp:130 but defined in neither source/PgfPlotsAxis.cpp nor include/PgfPlotsAxis.hpp, so the model treats it as doing nothing.
- PgfPlotsPlot::GetHist1d, GetHist2d and GetGraph are defined in neither source/PgfPlotsPlot.cpp nor include/PgfPlotsPlot.hpp: source/PgfPlotsAxis.cpp:20-22 calls all three and include/PgfPlotsPlot.hpp:22 declares only GetHist. The model reads them as exclusive by `Series.kind`, so a 2-D histogram is not also a 1-D one although TH2 derives from TH1, and that reading picks the branch AddPlot takes.
- TikzOptions::GetString is declared at include/TikzOptions.hpp:29 but defined in neither that header nor source/TikzOptions.cpp, so a plot's option text is the parameter `render`.
- The base axis's EnvHeader/EnvFooter, called at source/PgfPlotsAxis.cpp:134,159, are defined in neither source/PgfPlotsAxis.cpp nor include/PgfPlotsAxis.hpp. The model takes them to be `\begin{axis}` and `\end{axis}`; the group and sub-plot strings follow include/PgfPlotsGroupPlot.hpp:27,30 and include/PgfPlotsGroupSubPlot.hpp:17,20.
- Stale header declarations (options_ as a string, PgfPlotsPlot's single constructor) are ignored in favour of the .cpp files.
- Raw-pointer ownership, leaks and null pointers passed to Add or AddPlot are left out; a plot always has its object.
- Picture.TikzPicture.AddAxis and Picture.TikzPicture.AddGroup are TikzPicture::Add split by the `dynamic_cast` result.
- Latex.GetLatexString: where the source loops forever, the model stops and reports `LoopsBack`. This happens when the brace loop finds its closing brace before the point it resumes from; the model does not follow the loop further.
- LegacyPlot.TikzPlot.SetLog: a negative `short` axis makes `at()` throw in the source; the model returns false and changes nothing.
