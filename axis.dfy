/** PgfPlotsAxis: the options of one pgfplots axis environment, merged from the
    plots attached to it, and the text the axis writes. The group plot and its
    cells (PgfPlotsGroupPlot, PgfPlotsGroupSubPlot) are axes of another kind;
    the group plot itself is modelled in module Group. */
module Axis {
  import opened Wrappers
  import opened Text
  import opened Options
  import opened RootData
  import opened Latex
  import opened Plot
  import opened Legend

  /** Which environment an axis opens: the virtual EnvHeader/EnvFooter pair. */
  datatype AxisKind = PlainAxis | GroupBase | SubPlot

  function EnvHeader(kind: AxisKind): string
  {
    match kind
    case PlainAxis => "\\begin{axis}"
    case GroupBase => "\\begin{groupplot}"
    case SubPlot => "\\nextgroupplot"
  }

  function EnvFooter(kind: AxisKind): string
  {
    match kind
    case PlainAxis => "\\end{axis}"
    case GroupBase => "\\end{groupplot}"
    case SubPlot => ""
  }

  // ---------------------------------------------------------------------------
  // AddPlot, as a function of the options before the call.

  /** How AddPlot ends: it returns, a std::out_of_range or std::invalid_argument
      escapes (from GetLatexString or std::stod), or GetLatexString does not return. */
  datatype Status = Done | Thrown | Diverges

  /** The options of the axis at some point of AddPlot and whether it is still running. */
  datatype Merged = Merged(options: map<string, string>, status: Status)

  /** The value options_[key] reads: "" for a missing key. */
  function Get(m: map<string, string>, key: string): string
  {
    if key in m then m[key] else ""
  }

  /** Lines 39-44: a label is converted from the axis title only when the key is
      absent. The right-hand side is evaluated before operator[] inserts the
      key, so a conversion that throws leaves the map as it was. */
  function Label(m: Merged, key: string, title: string): Merged
  {
    if !m.status.Done? || key in m.options then m
    else match LatexString(title)
      case Converted(t) => Merged(m.options[key := "{" + t + "}"], Done)
      case OutOfRange => Merged(m.options, Thrown)
      case LoopsBack => Merged(m.options, Diverges)
  }

  const ViewKey := "view"
  const ColorBarKey := "colorbar"
  const ColorBarStyleKey := "colorbar style"

  /** Lines 46-50: for a 2-D histogram without a "colorbar style", the view and
      the colour bar are set; the bar's label comes from the z-axis title. */
  function ColorBar(m: Merged, s: Series): Merged
  {
    if !m.status.Done? || !s.kind.Hist2D? || ColorBarStyleKey in m.options then m
    else
      var o := m.options[ViewKey := "{0}{90}"][ColorBarKey := "true"];
      match LatexString(s.zTitle)
      case Converted(t) => Merged(o[ColorBarStyleKey := "{ylabel={" + t + "}}"], Done)
      case OutOfRange => Merged(o, Thrown)
      case LoopsBack => Merged(o, Diverges)
  }

  /** Whether an existing limit d gives way to a plot's bound: a lower limit
      above the bound, an upper limit below it. */
  predicate Beyond(d: int, bound: int, lower: bool)
  {
    if lower then d > bound else d < bound
  }

  /** Lines 53-60 and 73-80: options_[key] is created if missing; an empty value,
      or one std::stod reads as beyond the bound, is replaced by the bound. A
      value std::stod cannot read makes it throw. */
  function Limit(m: Merged, key: string, bound: int, lower: bool): Merged
  {
    if !m.status.Done? then m
    else
      var v := Get(m.options, key);
      var o := m.options[key := v];
      if v == "" then Merged(o[key := Encode(bound)], Done)
      else match Decode(v)
        case None => Merged(o, Thrown)
        case Some(d) => if Beyond(d, bound, lower) then Merged(o[key := Encode(bound)], Done) else Merged(o, Done)
  }

  /** x * num / 10 rounded toward zero: the 0.9 and 1.1 factors of lines 69-70
      on integers. */
  function Scale(x: int, num: nat): int
  {
    var p := x * num;
    if p >= 0 then p / 10 else -((-p) / 10)
  }

  /** Lines 63-71: the y range a plot asks for. Histograms of one dimension use
      their content range, and they and graphs are padded by the factors 0.9 and 1.1. */
  function YRange(s: Series): (int, int)
  {
    var base := if s.kind.Hist1D? then (s.contentMin, s.contentMax) else (s.yAxis.min, s.yAxis.max);
    if s.kind.Hist1D? || s.kind.Graph? then (Scale(base.0, 9), Scale(base.1, 11)) else base
  }

  const MetaMinKey := "point meta min"
  const MetaMaxKey := "point meta max"
  const RestrictKey := "restrict z to domain*"

  /** Lines 83-93: a 2-D histogram overwrites the colour range with its content range. */
  function ZMeta(m: Merged, s: Series): Merged
  {
    if !m.status.Done? || !s.kind.Hist2D? then m
    else Merged(m.options[MetaMinKey := Encode(s.contentMin)][MetaMaxKey := Encode(s.contentMax)]
                         [RestrictKey := Encode(s.contentMin) + ":" + Encode(s.contentMax)], Done)
  }

  function Labelled(o: map<string, string>, s: Series): Merged
  {
    ColorBar(Label(Label(Merged(o, Done), "xlabel", s.xTitle), "ylabel", s.yTitle), s)
  }

  function Ranged(m: Merged, s: Series): Merged
  {
    var y := YRange(s);
    Limit(Limit(Limit(Limit(m, "xmin", s.xAxis.min, true), "xmax", s.xAxis.max, false), "ymin", y.0, true), "ymax", y.1, false)
  }

  /** The options after PgfPlotsAxis::AddPlot, and how it ends. */
  function AddPlotSpec(o: map<string, string>, s: Series): Merged
  {
    ZMeta(Ranged(Labelled(o, s), s), s)
  }

  /** The keys AddPlot may write. */
  const Managed: set<string> := {"xlabel", "ylabel", ViewKey, ColorBarKey, ColorBarStyleKey,
                                  "xmin", "xmax", "ymin", "ymax", MetaMinKey, MetaMaxKey, RestrictKey}

  /** a and b agree on every key outside keys. */
  ghost predicate SameOutside(a: map<string, string>, b: map<string, string>, keys: set<string>)
  {
    forall k | k !in keys :: (k in a <==> k in b) && (k in a ==> a[k] == b[k])
  }

  // ---------------------------------------------------------------------------
  // What AddPlot promises.

  /** a keeps every entry of b, unchanged. */
  ghost predicate Keeps(a: map<string, string>, b: map<string, string>, key: string)
  {
    key in a ==> key in b && b[key] == a[key]
  }

  lemma LabelFrame(m: Merged, key: string, title: string)
    ensures SameOutside(m.options, Label(m, key, title).options, {key})
    ensures forall k :: Keeps(m.options, Label(m, key, title).options, k)
  {
  }

  lemma ColorBarFrame(m: Merged, s: Series)
    ensures SameOutside(m.options, ColorBar(m, s).options, {ViewKey, ColorBarKey, ColorBarStyleKey})
    ensures !s.kind.Hist2D? || ColorBarStyleKey in m.options ==> ColorBar(m, s).options == m.options
  {
  }

  lemma LimitFrame(m: Merged, key: string, bound: int, lower: bool)
    ensures SameOutside(m.options, Limit(m, key, bound, lower).options, {key})
  {
  }

  lemma ZMetaFrame(m: Merged, s: Series)
    ensures SameOutside(m.options, ZMeta(m, s).options, {MetaMinKey, MetaMaxKey, RestrictKey})
    ensures !s.kind.Hist2D? ==> ZMeta(m, s) == m
  {
  }

  lemma SameOutsideTrans(a: map<string, string>, b: map<string, string>, c: map<string, string>, k1: set<string>, k2: set<string>)
    requires SameOutside(a, b, k1) && SameOutside(b, c, k2)
    ensures SameOutside(a, c, k1 + k2)
  {
  }

  /** AddPlot writes no key outside the twelve it manages. */
  lemma AddPlotKeepsOthers(o: map<string, string>, s: Series)
    ensures SameOutside(o, AddPlotSpec(o, s).options, Managed)
  {
    var m0 := Merged(o, Done);
    var m1 := Label(m0, "xlabel", s.xTitle);
    var m2 := Label(m1, "ylabel", s.yTitle);
    var m3 := ColorBar(m2, s);
    LabelFrame(m0, "xlabel", s.xTitle);
    LabelFrame(m1, "ylabel", s.yTitle);
    ColorBarFrame(m2, s);
    var y := YRange(s);
    var m4 := Limit(m3, "xmin", s.xAxis.min, true);
    var m5 := Limit(m4, "xmax", s.xAxis.max, false);
    var m6 := Limit(m5, "ymin", y.0, true);
    var m7 := Limit(m6, "ymax", y.1, false);
    LimitFrame(m3, "xmin", s.xAxis.min, true);
    LimitFrame(m4, "xmax", s.xAxis.max, false);
    LimitFrame(m5, "ymin", y.0, true);
    LimitFrame(m6, "ymax", y.1, false);
    ZMetaFrame(m7, s);
    SameOutsideTrans(o, m1.options, m2.options, {"xlabel"}, {"ylabel"});
    SameOutsideTrans(o, m2.options, m3.options, {"xlabel", "ylabel"}, {ViewKey, ColorBarKey, ColorBarStyleKey});
    SameOutsideTrans(o, m3.options, m4.options, {"xlabel", "ylabel", ViewKey, ColorBarKey, ColorBarStyleKey}, {"xmin"});
    SameOutsideTrans(o, m4.options, m5.options, {"xlabel", "ylabel", ViewKey, ColorBarKey, ColorBarStyleKey, "xmin"}, {"xmax"});
    SameOutsideTrans(o, m5.options, m6.options, {"xlabel", "ylabel", ViewKey, ColorBarKey, ColorBarStyleKey, "xmin", "xmax"}, {"ymin"});
    SameOutsideTrans(o, m6.options, m7.options, {"xlabel", "ylabel", ViewKey, ColorBarKey, ColorBarStyleKey, "xmin", "xmax", "ymin"}, {"ymax"});
    SameOutsideTrans(o, m7.options, ZMeta(m7, s).options,
      {"xlabel", "ylabel", ViewKey, ColorBarKey, ColorBarStyleKey, "xmin", "xmax", "ymin", "ymax"}, {MetaMinKey, MetaMaxKey, RestrictKey});
  }

  /** Labels are written only when absent: a label the user gave or an earlier
      plot set is never replaced. After a call that returns both are present,
      a new one coming from the converted axis title. */
  lemma AddPlotLabels(o: map<string, string>, s: Series)
    ensures Keeps(o, AddPlotSpec(o, s).options, "xlabel") && Keeps(o, AddPlotSpec(o, s).options, "ylabel")
    ensures AddPlotSpec(o, s).status.Done? ==> "xlabel" in AddPlotSpec(o, s).options && "ylabel" in AddPlotSpec(o, s).options
    ensures AddPlotSpec(o, s).status.Done? && "xlabel" !in o ==>
      LatexString(s.xTitle).Converted? && AddPlotSpec(o, s).options["xlabel"] == "{" + LatexString(s.xTitle).text + "}"
    ensures AddPlotSpec(o, s).status.Done? && "ylabel" !in o ==>
      LatexString(s.yTitle).Converted? && AddPlotSpec(o, s).options["ylabel"] == "{" + LatexString(s.yTitle).text + "}"
  {
    var m1 := Label(Merged(o, Done), "xlabel", s.xTitle);
    var m2 := Label(m1, "ylabel", s.yTitle);
    LabelFrame(m1, "ylabel", s.yTitle);
    AfterLabels(m2, s, "xlabel");
    AfterLabels(m2, s, "ylabel");
  }

  /** The stages after the labels leave both label keys alone. */
  lemma AfterLabels(m2: Merged, s: Series, key: string)
    requires key == "xlabel" || key == "ylabel"
    ensures var r := ZMeta(Ranged(ColorBar(m2, s), s), s);
      (key in m2.options <==> key in r.options) && (key in m2.options ==> r.options[key] == m2.options[key])
    ensures ZMeta(Ranged(ColorBar(m2, s), s), s).status.Done? ==> m2.status.Done?
  {
    var m3 := ColorBar(m2, s);
    ColorBarFrame(m2, s);
    var y := YRange(s);
    var m4 := Limit(m3, "xmin", s.xAxis.min, true);
    var m5 := Limit(m4, "xmax", s.xAxis.max, false);
    var m6 := Limit(m5, "ymin", y.0, true);
    var m7 := Limit(m6, "ymax", y.1, false);
    LimitFrame(m3, "xmin", s.xAxis.min, true);
    LimitFrame(m4, "xmax", s.xAxis.max, false);
    LimitFrame(m5, "ymin", y.0, true);
    LimitFrame(m6, "ymax", y.1, false);
    ZMetaFrame(m7, s);
  }

  /** The limit `key` of r reads as a number that reaches the bound, does not
      narrow the limit of o, and is one of the two. */
  ghost predicate Covers(o: map<string, string>, r: map<string, string>, key: string, bound: int, lower: bool)
  {
    key in r && Decode(r[key]).Some? &&
    var v := Decode(r[key]).value;
    !Beyond(v, bound, lower) &&
    (Get(o, key) != "" ==> Decode(o[key]).Some? && !Beyond(v, Decode(o[key]).value, lower)) &&
    (v == bound || (Get(o, key) != "" && Decode(o[key]) == Some(v)))
  }

  lemma LimitCovers(m: Merged, key: string, bound: int, lower: bool)
    requires m.status.Done?
    ensures Limit(m, key, bound, lower).status.Done? ==> Covers(m.options, Limit(m, key, bound, lower).options, key, bound, lower)
    ensures Limit(m, key, bound, lower).status.Done? <==> Get(m.options, key) == "" || Decode(m.options[key]).Some?
  {
    DecodeEncode(bound);
  }

  /** Covers survives a stage that leaves `key` alone. */
  lemma CoversOutside(o: map<string, string>, a: map<string, string>, b: map<string, string>, key: string, bound: int, lower: bool, keys: set<string>)
    requires Covers(o, a, key, bound, lower) && SameOutside(a, b, keys) && key !in keys
    ensures Covers(o, b, key, bound, lower)
  {
  }

  /** Covers holds of o against o' when they agree on key. */
  lemma CoversSameStart(o: map<string, string>, o2: map<string, string>, r: map<string, string>, key: string, bound: int, lower: bool, keys: set<string>)
    requires Covers(o2, r, key, bound, lower) && SameOutside(o, o2, keys) && key !in keys
    ensures Covers(o, r, key, bound, lower)
  {
    assert Get(o, key) == Get(o2, key);
  }

  /** Every stage but the limits and the colour range writes only to these. */
  const EarlyKeys: set<string> := {"xlabel", "ylabel", ViewKey, ColorBarKey, ColorBarStyleKey}
  const ZKeys: set<string> := {MetaMinKey, MetaMaxKey, RestrictKey}

  /** After a call that returns, xmin and ymin are at most the plot's lower
      bounds and xmax and ymax at least its upper ones, even over a limit the
      user set; each limit is the old one or the plot's bound, whichever is
      wider, so limits only ever widen. An empty limit counts as unset. */
  lemma AddPlotRanges(o: map<string, string>, s: Series)
    requires AddPlotSpec(o, s).status.Done?
    ensures Covers(o, AddPlotSpec(o, s).options, "xmin", s.xAxis.min, true)
    ensures Covers(o, AddPlotSpec(o, s).options, "xmax", s.xAxis.max, false)
    ensures Covers(o, AddPlotSpec(o, s).options, "ymin", YRange(s).0, true)
    ensures Covers(o, AddPlotSpec(o, s).options, "ymax", YRange(s).1, false)
  {
    var m3 := Labelled(o, s);
    var m7 := Ranged(m3, s);
    var r := ZMeta(m7, s).options;
    EarlyFrame(o, s);
    ZMetaFrame(m7, s);
    assert m7.status.Done?;
    RangedKeepsFailure(m3, s);
    RangedCovers(m3, s);
    var y := YRange(s);
    CoversAround(o, m3.options, m7.options, r, "xmin", s.xAxis.min, true);
    CoversAround(o, m3.options, m7.options, r, "xmax", s.xAxis.max, false);
    CoversAround(o, m3.options, m7.options, r, "ymin", y.0, true);
    CoversAround(o, m3.options, m7.options, r, "ymax", y.1, false);
  }

  /** The labels and the colour bar write only the early keys. */
  lemma EarlyFrame(o: map<string, string>, s: Series)
    ensures SameOutside(o, Labelled(o, s).options, EarlyKeys)
  {
    var m0 := Merged(o, Done);
    var m1 := Label(m0, "xlabel", s.xTitle);
    var m2 := Label(m1, "ylabel", s.yTitle);
    LabelFrame(m0, "xlabel", s.xTitle);
    LabelFrame(m1, "ylabel", s.yTitle);
    ColorBarFrame(m2, s);
    SameOutsideTrans(o, m1.options, m2.options, {"xlabel"}, {"ylabel"});
    SameOutsideTrans(o, m2.options, ColorBar(m2, s).options, {"xlabel", "ylabel"}, {ViewKey, ColorBarKey, ColorBarStyleKey});
  }

  /** A limit key is neither early nor a colour-range key, so Covers carries
      over from the stage before the limits to the call's start and end. */
  lemma CoversAround(o: map<string, string>, m3: map<string, string>, m7: map<string, string>, r: map<string, string>,
                     key: string, bound: int, lower: bool)
    requires key in {"xmin", "xmax", "ymin", "ymax"}
    requires SameOutside(o, m3, EarlyKeys) && SameOutside(m7, r, ZKeys)
    requires Covers(m3, m7, key, bound, lower)
    ensures Covers(o, r, key, bound, lower)
  {
    CoversOutside(m3, m7, r, key, bound, lower, ZKeys);
    CoversSameStart(o, m3, r, key, bound, lower, EarlyKeys);
  }

  lemma RangedKeepsFailure(m: Merged, s: Series)
    ensures Ranged(m, s).status.Done? ==> m.status.Done?
  {
  }

  /** The four limit stages, each between stages that leave its key alone. */
  lemma RangedCovers(m3: Merged, s: Series)
    requires m3.status.Done? && Ranged(m3, s).status.Done?
    ensures Covers(m3.options, Ranged(m3, s).options, "xmin", s.xAxis.min, true)
    ensures Covers(m3.options, Ranged(m3, s).options, "xmax", s.xAxis.max, false)
    ensures Covers(m3.options, Ranged(m3, s).options, "ymin", YRange(s).0, true)
    ensures Covers(m3.options, Ranged(m3, s).options, "ymax", YRange(s).1, false)
  {
    var y := YRange(s);
    var m4 := Limit(m3, "xmin", s.xAxis.min, true);
    var m5 := Limit(m4, "xmax", s.xAxis.max, false);
    var m6 := Limit(m5, "ymin", y.0, true);
    var m7 := Limit(m6, "ymax", y.1, false);
    assert m6.status.Done? && m5.status.Done? && m4.status.Done?;
    LimitFrame(m3, "xmin", s.xAxis.min, true);
    LimitFrame(m4, "xmax", s.xAxis.max, false);
    LimitFrame(m5, "ymin", y.0, true);
    LimitFrame(m6, "ymax", y.1, false);
    LimitCovers(m3, "xmin", s.xAxis.min, true);
    LimitCovers(m4, "xmax", s.xAxis.max, false);
    LimitCovers(m5, "ymin", y.0, true);
    LimitCovers(m6, "ymax", y.1, false);
    // xmin
    CoversOutside(m3.options, m4.options, m5.options, "xmin", s.xAxis.min, true, {"xmax"});
    CoversOutside(m3.options, m5.options, m6.options, "xmin", s.xAxis.min, true, {"ymin"});
    CoversOutside(m3.options, m6.options, m7.options, "xmin", s.xAxis.min, true, {"ymax"});
    // xmax
    CoversSameStart(m3.options, m4.options, m5.options, "xmax", s.xAxis.max, false, {"xmin"});
    CoversOutside(m3.options, m5.options, m6.options, "xmax", s.xAxis.max, false, {"ymin"});
    CoversOutside(m3.options, m6.options, m7.options, "xmax", s.xAxis.max, false, {"ymax"});
    // ymin
    SameOutsideTrans(m3.options, m4.options, m5.options, {"xmin"}, {"xmax"});
    CoversSameStart(m3.options, m5.options, m6.options, "ymin", y.0, true, {"xmin", "xmax"});
    CoversOutside(m3.options, m6.options, m7.options, "ymin", y.0, true, {"ymax"});
    // ymax
    SameOutsideTrans(m3.options, m5.options, m6.options, {"xmin", "xmax"}, {"ymin"});
    CoversSameStart(m3.options, m6.options, m7.options, "ymax", y.1, false, {"xmin", "xmax", "ymin"});
  }

  /** The limit and colour-range stages write only these. */
  const LateKeys: set<string> := {"xmin", "xmax", "ymin", "ymax", MetaMinKey, MetaMaxKey, RestrictKey}

  lemma LateFrame(m: Merged, s: Series)
    ensures SameOutside(m.options, ZMeta(Ranged(m, s), s).options, LateKeys)
  {
    var y := YRange(s);
    var m4 := Limit(m, "xmin", s.xAxis.min, true);
    var m5 := Limit(m4, "xmax", s.xAxis.max, false);
    var m6 := Limit(m5, "ymin", y.0, true);
    var m7 := Limit(m6, "ymax", y.1, false);
    LimitFrame(m, "xmin", s.xAxis.min, true);
    LimitFrame(m4, "xmax", s.xAxis.max, false);
    LimitFrame(m5, "ymin", y.0, true);
    LimitFrame(m6, "ymax", y.1, false);
    ZMetaFrame(m7, s);
    SameOutsideTrans(m.options, m4.options, m5.options, {"xmin"}, {"xmax"});
    SameOutsideTrans(m.options, m5.options, m6.options, {"xmin", "xmax"}, {"ymin"});
    SameOutsideTrans(m.options, m6.options, m7.options, {"xmin", "xmax", "ymin"}, {"ymax"});
    SameOutsideTrans(m.options, m7.options, ZMeta(m7, s).options, {"xmin", "xmax", "ymin", "ymax"}, ZKeys);
  }

  /** a and b agree on key. */
  ghost predicate Agree(a: map<string, string>, b: map<string, string>, key: string)
  {
    (key in a <==> key in b) && (key in a ==> a[key] == b[key])
  }

  lemma AgreeOutside(a: map<string, string>, b: map<string, string>, keys: set<string>, key: string)
    requires SameOutside(a, b, keys) && key !in keys
    ensures Agree(a, b, key)
  {
  }

  /** The limits and the colour range leave every other key alone. */
  lemma LateAgree(m: Merged, s: Series, key: string)
    requires key !in LateKeys
    ensures Agree(m.options, ZMeta(Ranged(m, s), s).options, key)
  {
    LateFrame(m, s);
    AgreeOutside(m.options, ZMeta(Ranged(m, s), s).options, LateKeys, key);
  }

  lemma ZMetaKeepsFailure(m: Merged, s: Series)
    ensures ZMeta(m, s).status.Done? ==> m.status.Done?
  {
  }

  /** The colour-bar part of the labels stage, on its own. */
  lemma LabelledColorBar(o: map<string, string>, s: Series)
    ensures !s.kind.Hist2D? || ColorBarStyleKey in o ==>
      Agree(o, Labelled(o, s).options, ViewKey) && Agree(o, Labelled(o, s).options, ColorBarKey) &&
      Agree(o, Labelled(o, s).options, ColorBarStyleKey)
    ensures s.kind.Hist2D? && ColorBarStyleKey !in o && Labelled(o, s).status.Done? ==>
      var r := Labelled(o, s).options;
      ViewKey in r && r[ViewKey] == "{0}{90}" && ColorBarKey in r && r[ColorBarKey] == "true" &&
      LatexString(s.zTitle).Converted? && ColorBarStyleKey in r && r[ColorBarStyleKey] == "{ylabel={" + LatexString(s.zTitle).text + "}}"
  {
    var m0 := Merged(o, Done);
    var m1 := Label(m0, "xlabel", s.xTitle);
    var m2 := Label(m1, "ylabel", s.yTitle);
    LabelFrame(m0, "xlabel", s.xTitle);
    LabelFrame(m1, "ylabel", s.yTitle);
    AgreeOutside(o, m1.options, {"xlabel"}, ViewKey);
    AgreeOutside(o, m1.options, {"xlabel"}, ColorBarKey);
    AgreeOutside(o, m1.options, {"xlabel"}, ColorBarStyleKey);
    AgreeOutside(m1.options, m2.options, {"ylabel"}, ViewKey);
    AgreeOutside(m1.options, m2.options, {"ylabel"}, ColorBarKey);
    AgreeOutside(m1.options, m2.options, {"ylabel"}, ColorBarStyleKey);
    assert m2.status.Done? ==> m1.status.Done?;
  }

  /** The colour bar is set up only for a 2-D histogram and only while the axis
      has no "colorbar style": otherwise the view, the bar and its style are left
      as they were. After a call that sets it up and returns, the view is turned
      by 90 degrees, the bar is on, and its label is the converted z title. */
  lemma AddPlotColorBar(o: map<string, string>, s: Series)
    ensures !s.kind.Hist2D? || ColorBarStyleKey in o ==>
      Agree(o, AddPlotSpec(o, s).options, ViewKey) && Agree(o, AddPlotSpec(o, s).options, ColorBarKey) &&
      Agree(o, AddPlotSpec(o, s).options, ColorBarStyleKey)
    ensures s.kind.Hist2D? && ColorBarStyleKey !in o && AddPlotSpec(o, s).status.Done? ==>
      var r := AddPlotSpec(o, s).options;
      ViewKey in r && r[ViewKey] == "{0}{90}" && ColorBarKey in r && r[ColorBarKey] == "true" &&
      LatexString(s.zTitle).Converted? && ColorBarStyleKey in r && r[ColorBarStyleKey] == "{ylabel={" + LatexString(s.zTitle).text + "}}"
  {
    var m3 := Labelled(o, s);
    LabelledColorBar(o, s);
    LateAgree(m3, s, ViewKey);
    LateAgree(m3, s, ColorBarKey);
    LateAgree(m3, s, ColorBarStyleKey);
    RangedKeepsFailure(m3, s);
    ZMetaKeepsFailure(Ranged(m3, s), s);
  }

  /** Before the colour range, only keys other than its three are written. */
  lemma EarlyAgree(o: map<string, string>, s: Series, key: string)
    requires key in ZKeys
    ensures Agree(o, Ranged(Labelled(o, s), s).options, key)
  {
    var m3 := Labelled(o, s);
    EarlyFrame(o, s);
    AgreeOutside(o, m3.options, EarlyKeys, key);
    var y := YRange(s);
    var m4 := Limit(m3, "xmin", s.xAxis.min, true);
    var m5 := Limit(m4, "xmax", s.xAxis.max, false);
    var m6 := Limit(m5, "ymin", y.0, true);
    LimitFrame(m3, "xmin", s.xAxis.min, true);
    LimitFrame(m4, "xmax", s.xAxis.max, false);
    LimitFrame(m5, "ymin", y.0, true);
    LimitFrame(m6, "ymax", y.1, false);
    AgreeOutside(m3.options, m4.options, {"xmin"}, key);
    AgreeOutside(m4.options, m5.options, {"xmax"}, key);
    AgreeOutside(m5.options, m6.options, {"ymin"}, key);
    AgreeOutside(m6.options, Ranged(m3, s).options, {"ymax"}, key);
  }

  /** A 2-D histogram overwrites the colour range with its own content range,
      whatever the axis held; other plots leave it alone. */
  lemma AddPlotZMeta(o: map<string, string>, s: Series)
    ensures !s.kind.Hist2D? ==>
      Agree(o, AddPlotSpec(o, s).options, MetaMinKey) && Agree(o, AddPlotSpec(o, s).options, MetaMaxKey) &&
      Agree(o, AddPlotSpec(o, s).options, RestrictKey)
    ensures s.kind.Hist2D? && AddPlotSpec(o, s).status.Done? ==>
      var r := AddPlotSpec(o, s).options;
      MetaMinKey in r && Decode(r[MetaMinKey]) == Some(s.contentMin) &&
      MetaMaxKey in r && Decode(r[MetaMaxKey]) == Some(s.contentMax) &&
      RestrictKey in r && r[RestrictKey] == r[MetaMinKey] + ":" + r[MetaMaxKey]
  {
    if !s.kind.Hist2D? {
      EarlyAgree(o, s, MetaMinKey);
      EarlyAgree(o, s, MetaMaxKey);
      EarlyAgree(o, s, RestrictKey);
      ZMetaFrame(Ranged(Labelled(o, s), s), s);
    } else {
      DecodeEncode(s.contentMin);
      DecodeEncode(s.contentMax);
    }
  }

  /** A limit std::stod can read, or one that is missing or empty. */
  ghost predicate ReadableLimit(o: map<string, string>, key: string)
  {
    Get(o, key) == "" || Decode(o[key]).Some?
  }

  /** The labels and the colour bar return exactly when every title they
      convert converts. */
  lemma LabelledReturns(o: map<string, string>, s: Series)
    ensures Labelled(o, s).status.Done? <==>
      ("xlabel" in o || LatexString(s.xTitle).Converted?) &&
      ("ylabel" in o || LatexString(s.yTitle).Converted?) &&
      (!s.kind.Hist2D? || ColorBarStyleKey in o || LatexString(s.zTitle).Converted?)
  {
    var m0 := Merged(o, Done);
    var m1 := Label(m0, "xlabel", s.xTitle);
    LabelFrame(m0, "xlabel", s.xTitle);
    AgreeOutside(o, m1.options, {"xlabel"}, "ylabel");
    AgreeOutside(o, m1.options, {"xlabel"}, ColorBarStyleKey);
    var m2 := Label(m1, "ylabel", s.yTitle);
    LabelFrame(m1, "ylabel", s.yTitle);
    AgreeOutside(m1.options, m2.options, {"ylabel"}, ColorBarStyleKey);
  }

  /** The four limit stages return exactly when each limit they read is readable. */
  lemma RangedReturns(m: Merged, s: Series)
    requires m.status.Done?
    ensures Ranged(m, s).status.Done? <==>
      ReadableLimit(m.options, "xmin") && ReadableLimit(m.options, "xmax") &&
      ReadableLimit(m.options, "ymin") && ReadableLimit(m.options, "ymax")
  {
    var y := YRange(s);
    var m4 := Limit(m, "xmin", s.xAxis.min, true);
    var m5 := Limit(m4, "xmax", s.xAxis.max, false);
    var m6 := Limit(m5, "ymin", y.0, true);
    LimitFrame(m, "xmin", s.xAxis.min, true);
    LimitFrame(m4, "xmax", s.xAxis.max, false);
    LimitFrame(m5, "ymin", y.0, true);
    AgreeOutside(m.options, m4.options, {"xmin"}, "xmax");
    AgreeOutside(m.options, m4.options, {"xmin"}, "ymin");
    AgreeOutside(m.options, m4.options, {"xmin"}, "ymax");
    AgreeOutside(m4.options, m5.options, {"xmax"}, "ymin");
    AgreeOutside(m4.options, m5.options, {"xmax"}, "ymax");
    AgreeOutside(m5.options, m6.options, {"ymin"}, "ymax");
    LimitCovers(m, "xmin", s.xAxis.min, true);
    if m4.status.Done? {
      LimitCovers(m4, "xmax", s.xAxis.max, false);
      if m5.status.Done? {
        LimitCovers(m5, "ymin", y.0, true);
        if m6.status.Done? {
          LimitCovers(m6, "ymax", y.1, false);
        }
      }
    }
  }

  /** AddPlot returns (rather than throws or hangs) exactly when its titles
      convert and each of the four limits it reads is readable. */
  lemma AddPlotReturns(o: map<string, string>, s: Series)
    ensures AddPlotSpec(o, s).status.Done? <==>
      Labelled(o, s).status.Done? &&
      ReadableLimit(o, "xmin") && ReadableLimit(o, "xmax") && ReadableLimit(o, "ymin") && ReadableLimit(o, "ymax")
  {
    var m3 := Labelled(o, s);
    EarlyFrame(o, s);
    AgreeOutside(o, m3.options, EarlyKeys, "xmin");
    AgreeOutside(o, m3.options, EarlyKeys, "xmax");
    AgreeOutside(o, m3.options, EarlyKeys, "ymin");
    AgreeOutside(o, m3.options, EarlyKeys, "ymax");
    RangedKeepsFailure(m3, s);
    ZMetaKeepsFailure(Ranged(m3, s), s);
    ZMetaFrame(Ranged(m3, s), s);
    if m3.status.Done? {
      RangedReturns(m3, s);
    }
  }

  /** A limit std::stod cannot read makes a plot that gets past its labels throw. */
  lemma UnreadableLimitThrows(s: Series)
    requires LatexString(s.xTitle).Converted? && LatexString(s.yTitle).Converted? && !s.kind.Hist2D?
    ensures AddPlotSpec(map["xmin" := "abc"], s).status == Thrown
  {
    var o := map["xmin" := "abc"];
    LabelledReturns(o, s);
    var m3 := Labelled(o, s);
    EarlyFrame(o, s);
    assert Get(m3.options, "xmin") == "abc";
    assert Decode("abc") == None by { DecodeNonNumeric("abc"); }
  }

  /** The 0.9 factor pads a lower bound downwards only when it is not negative:
      a negative minimum such as -10 becomes -9, above the data. The 1.1 factor
      likewise pads a negative maximum downwards, into the data: -10 becomes -11. */
  lemma PaddingDirection(x: int)
    ensures Scale(x, 9) <= x <==> x >= 0
    ensures x >= 0 ==> Scale(x, 11) >= x
    ensures x < 0 ==> Scale(x, 11) <= x
  {
    if x < 0 {
      assert (-(x * 9)) / 10 < -x;
      assert (-(x * 11)) / 10 >= -x;
    } else {
      assert (x * 9) / 10 <= x;
      assert (x * 11) / 10 >= x;
    }
  }

  // ---------------------------------------------------------------------------
  // SetLog, as a function of the options before the call.

  /** The option SetLog sets for axis 0, 1 or 2. */
  function LogKey(axis: int): Option<string>
  {
    if axis == 0 then Some("xmode") else if axis == 1 then Some("ymode")
    else if axis == 2 then Some("zmode") else None
  }

  function LogOptions(o: map<string, string>, axis: int, logMode: bool): map<string, string>
  {
    match LogKey(axis)
    case None => o
    case Some(k) => if logMode then o[k := "log"] else o - {k}
  }

  /** Only axes 0, 1 and 2 have a mode; any other axis leaves the options as
      they were. Turning log mode on sets the axis' mode key to "log", turning
      it off erases the key, and no other key changes. */
  lemma LogOptionsEffect(o: map<string, string>, axis: int, logMode: bool)
    ensures !(0 <= axis <= 2) ==> LogOptions(o, axis, logMode) == o
    ensures 0 <= axis <= 2 <==> LogKey(axis).Some?
    ensures LogKey(axis).Some? ==>
      (var k := LogKey(axis).value;
       (logMode ==> k in LogOptions(o, axis, logMode) && LogOptions(o, axis, logMode)[k] == "log") &&
       (!logMode ==> k !in LogOptions(o, axis, logMode)) &&
       SameOutside(o, LogOptions(o, axis, logMode), {k}))
  {
  }

  /** The three axes have three different keys, so each SetLog call touches
      only its own axis. */
  lemma LogKeysDistinct(a: int, b: int)
    requires 0 <= a <= 2 && 0 <= b <= 2 && a != b
    ensures LogKey(a) != LogKey(b)
  {
  }

  /** The last of two SetLog calls on one axis decides its mode. */
  lemma LogLastWins(o: map<string, string>, axis: int, first: bool, second: bool)
    ensures LogOptions(LogOptions(o, axis, first), axis, second) == LogOptions(o, axis, second)
  {
    match LogKey(axis)
    case None =>
    case Some(k) =>
      if second {
        assert LogOptions(o, axis, first)[k := "log"] == o[k := "log"];
      } else {
        assert LogOptions(o, axis, first) - {k} == o - {k};
      }
  }

  // ---------------------------------------------------------------------------
  // Write

  function OptionLine(indent: string, key: string, value: string): string
  {
    indent + key + "=" + value + ",\n"
  }

  /** The lines for the keys `keys` of m, in the order of `keys`. */
  function LinesOf(m: map<string, string>, keys: seq<string>, indent: string): string
  {
    if keys == [] then "" else OptionLine(indent, keys[0], Get(m, keys[0])) + LinesOf(m, keys[1..], indent)
  }

  /** One line per option, in the iteration order of the std::map. */
  ghost function OptionLines(m: map<string, string>, indent: string): string
  {
    LinesOf(m, SortedKeys(m.Keys), indent)
  }

  /** The loop over the options of lines 136-138 and 145-147. */
  method WriteOptions(m: map<string, string>, indent: string) returns (out: string)
    ensures out == OptionLines(m, indent)
  {
    ghost var whole := OptionLines(m, indent);
    var rest := m.Keys;
    out := "";
    while rest != {}
      invariant rest <= m.Keys
      invariant out + LinesOf(m, SortedKeys(rest), indent) == whole
      decreases |rest|
    {
      var k := LeastKey(rest);
      var line := OptionLine(indent, k, m[k]);
      OptionStep(m, rest, k, indent);
      ghost var after := LinesOf(m, SortedKeys(rest - {k}), indent);
      Associative(out, line, after);
      out := out + line;
      rest := rest - {k};
    }
  }

  lemma OptionStep(m: map<string, string>, rest: set<string>, k: string, indent: string)
    requires rest <= m.Keys && IsLeast(k, rest)
    ensures LinesOf(m, SortedKeys(rest), indent) == OptionLine(indent, k, m[k]) + LinesOf(m, SortedKeys(rest - {k}), indent)
  {
    SortedKeysStep(rest, k);
    var tail := SortedKeys(rest - {k});
    assert ([k] + tail)[1..] == tail;
  }

  /** Options are written in key order, not in the order they were given. */
  lemma OptionLinesOrder()
    ensures OptionLines(map["b" := "2", "a" := "1"], "") == "a=1,\nb=2,\n"
  {
    var m := map["b" := "2", "a" := "1"];
    assert m.Keys == {"a", "b"};
    assert LexLess("a", "b");
    SortedKeysStep({"a", "b"}, "a");
    assert {"a", "b"} - {"a"} == {"b"};
    SortedKeysStep({"b"}, "b");
    assert {"b"} - {"b"} == {};
    assert SortedKeys({"a", "b"}) == ["a", "b"];
  }

  const OptionsEnd := "\t\t]\n\n"
  const LegendStyleHead := "\t\t\tlegend style={\n"
  const LegendStyleEnd := "\t\t\t}\n"

  /** Lines 141-150: the legend's style options, when there are any. */
  ghost function LegendStyleText(legend: PgfPlotsLegend?): string
    reads legend, if legend == null then {} else {legend.style}
  {
    if legend == null || legend.style.entries == map[] then ""
    else LegendStyleHead + OptionLines(legend.style.entries, "\t\t\t\t") + LegendStyleEnd
  }

  /** The concatenated text of the plots, in order. */
  function PlotsText(plots: seq<PgfPlotsPlot>, render: map<string, string> -> string): string
    reads set p | p in plots
  {
    if plots == [] then "" else PlotsText(plots[..|plots| - 1], render) + plots[|plots| - 1].Text(render)
  }

  lemma PlotsTextSnoc(plots: seq<PgfPlotsPlot>, i: nat, render: map<string, string> -> string)
    requires i < |plots|
    ensures PlotsText(plots[..i + 1], render) == PlotsText(plots[..i], render) + plots[i].Text(render)
  {
    assert plots[..i + 1][..i] == plots[..i];
  }

  /** An axis. plots_ and the legend pointer are fields; options_ is the map. */
  class PgfPlotsAxis {
    const kind: AxisKind
    var options: map<string, string>
    var plots: seq<PgfPlotsPlot>
    var legend: PgfPlotsLegend?

    constructor (kind: AxisKind, options: map<string, string>)
      ensures this.kind == kind && this.options == options && plots == [] && legend == null
    {
      this.kind := kind;
      this.options := options;
      plots := [];
      legend := null;
    }

    /** PgfPlotsAxis(options): None where the options string makes Add throw. */
    static method Create(kind: AxisKind, options: string) returns (r: Option<PgfPlotsAxis>)
      ensures r.Some? <==> AddSpec(map[], options).ok
      ensures r.Some? ==>
        fresh(r.value) && r.value.kind == kind && r.value.options == AddSpec(map[], options).entries &&
        r.value.plots == [] && r.value.legend == null
    {
      var parsed := TikzOptions.Create(options);
      if parsed.None? {
        return None;
      }
      var a := new PgfPlotsAxis(kind, parsed.value.entries);
      r := Some(a);
    }

    /** Everything Text reads. */
    ghost function Footprint(): (r: set<object>)
      reads this
      ensures this in r
    {
      {this} + (set p | p in plots :: p as object) + (if legend == null then {} else {legend, legend.style})
    }

    /** options_[key] = value: an assignment through operator[], which
        overwrites, unlike the emplace of TikzOptions::Add. */
    method SetOption(key: string, value: string)
      modifies this
      ensures options == old(options)[key := value]
      ensures plots == old(plots) && legend == old(legend)
    {
      options := options[key := value];
    }

    /** PgfPlotsAxis::SetLegend. */
    method SetLegend(legend: PgfPlotsLegend?)
      modifies this
      ensures this.legend == legend && options == old(options) && plots == old(plots)
    {
      this.legend := legend;
    }

    /** Lines 39-44 for one label. */
    method AddLabel(key: string, title: string) returns (status: Status)
      modifies this
      ensures Merged(options, status) == Label(Merged(old(options), Done), key, title)
      ensures plots == old(plots) && legend == old(legend)
    {
      status := Done;
      if key !in options {
        var t := GetLatexString(title);
        match t
        case Converted(text) => options := options[key := "{" + text + "}"];
        case OutOfRange => status := Thrown;
        case LoopsBack => status := Diverges;
      }
    }

    /** Lines 46-50. */
    method AddColorBar(s: Series) returns (status: Status)
      modifies this
      ensures Merged(options, status) == ColorBar(Merged(old(options), Done), s)
      ensures plots == old(plots) && legend == old(legend)
    {
      status := Done;
      if s.kind.Hist2D? && ColorBarStyleKey !in options {
        options := options[ViewKey := "{0}{90}"];
        options := options[ColorBarKey := "true"];
        var t := GetLatexString(s.zTitle);
        match t
        case Converted(text) => options := options[ColorBarStyleKey := "{ylabel={" + text + "}}"];
        case OutOfRange => status := Thrown;
        case LoopsBack => status := Diverges;
      }
    }

    /** One of the four limit blocks of lines 53-60 and 73-80, through the
        reference options_[key]. */
    method WidenLimit(key: string, bound: int, lower: bool) returns (status: Status)
      modifies this
      ensures Merged(options, status) == Limit(Merged(old(options), Done), key, bound, lower)
      ensures plots == old(plots) && legend == old(legend)
    {
      status := Done;
      var v := Get(options, key);
      options := options[key := v];
      if v == "" {
        options := options[key := Encode(bound)];
      } else {
        var d := Decode(v);
        if d.None? {
          status := Thrown;
        } else if Beyond(d.value, bound, lower) {
          options := options[key := Encode(bound)];
        }
      }
    }

    /** PgfPlotsAxis::AddPlot. */
    method AddPlot(plot: PgfPlotsPlot) returns (status: Status)
      modifies this
      ensures plots == old(plots) + [plot] && legend == old(legend)
      ensures Merged(options, status) == AddPlotSpec(old(options), plot.series)
    {
      plots := plots + [plot];
      var s := plot.series;
      ghost var o := options;
      status := AddLabel("xlabel", s.xTitle);
      if !status.Done? {
        return;
      }
      status := AddLabel("ylabel", s.yTitle);
      if !status.Done? {
        return;
      }
      status := AddColorBar(s);
      assert Merged(options, status) == Labelled(o, s);
      if !status.Done? {
        return;
      }
      ghost var labelled := options;
      status := WidenLimit("xmin", s.xAxis.min, true);
      if !status.Done? {
        return;
      }
      status := WidenLimit("xmax", s.xAxis.max, false);
      if !status.Done? {
        return;
      }
      var plotYMin := s.yAxis.min;
      var plotYMax := s.yAxis.max;
      if s.kind.Hist1D? {
        plotYMin, plotYMax := s.contentMin, s.contentMax;
      }
      if s.kind.Hist1D? || s.kind.Graph? {
        plotYMin := Scale(plotYMin, 9);
        plotYMax := Scale(plotYMax, 11);
      }
      assert (plotYMin, plotYMax) == YRange(s);
      status := WidenLimit("ymin", plotYMin, true);
      if !status.Done? {
        return;
      }
      status := WidenLimit("ymax", plotYMax, false);
      if !status.Done? {
        return;
      }
      assert Merged(options, status) == Ranged(Merged(labelled, Done), s);
      if s.kind.Hist2D? {
        var plotZMin := s.contentMin;
        var plotZMax := s.contentMax;
        options := options[MetaMinKey := Encode(plotZMin)];
        options := options[MetaMaxKey := Encode(plotZMax)];
        options := options[RestrictKey := Encode(plotZMin) + ":" + Encode(plotZMax)];
      }
    }

    /** PgfPlotsAxis::SetLog. */
    method SetLog(axis: int, logMode: bool)
      modifies this
      ensures options == LogOptions(old(options), axis, logMode)
      ensures plots == old(plots) && legend == old(legend)
    {
      var name: string;
      if axis == 0 {
        name := "xmode";
      } else if axis == 1 {
        name := "ymode";
      } else if axis == 2 {
        name := "zmode";
      } else {
        return;
      }
      if logMode {
        options := options[name := "log"];
      } else {
        options := options - {name};
      }
    }

    /** Lines 134-155: the environment header, the options, the legend style,
        the closing bracket and the legend. */
    ghost function Opening(): string
      reads Footprint()
    {
      "\t" + EnvHeader(kind) + "[\n" + OptionLines(options, "\t\t\t") + LegendStyleText(legend)
      + OptionsEnd + (if legend == null then "" else legend.Text())
    }

    /** Line 159. */
    function Closing(): string
    {
      "\t" + EnvFooter(kind) + "\n"
    }

    /** What Write emits for an axis that is not a group plot. */
    ghost function Text(render: map<string, string> -> string): string
      reads Footprint()
    {
      Opening() + PlotsText(plots, render) + Closing()
    }

    /** Lines 130-155. PreprocessOptions is not part of this model. */
    method WriteOpening() returns (out: string)
      ensures out == Opening()
    {
      out := "\t" + EnvHeader(kind) + "[\n";
      var lines := WriteOptions(options, "\t\t\t");
      out := out + lines;
      if legend != null {
        if legend.style.entries != map[] {
          var styleLines := WriteOptions(legend.style.entries, "\t\t\t\t");
          out := out + (LegendStyleHead + styleLines + LegendStyleEnd);
        }
      }
      out := out + OptionsEnd;
      if legend != null {
        var l := legend.Write();
        out := out + l;
      }
    }

    /** PgfPlotsAxis::WriteRegisteredItems: the plots in the order they were added. */
    method WriteRegisteredItems(render: map<string, string> -> string) returns (out: string)
      ensures out == PlotsText(plots, render)
    {
      var ps := plots;
      out := "";
      var i := 0;
      while i < |ps|
        invariant 0 <= i <= |ps|
        invariant out == PlotsText(ps[..i], render)
      {
        out := WritePlot(ps, i, out, render);
        i := i + 1;
      }
      assert ps[..|ps|] == ps;
    }

    /** One step of the loop: append plot i. Writing does not change the heap,
        so the text of the plots before it stays the same. */
    static method WritePlot(ps: seq<PgfPlotsPlot>, i: nat, before: string, render: map<string, string> -> string)
      returns (out: string)
      requires i < |ps| && before == PlotsText(ps[..i], render)
      ensures out == PlotsText(ps[..i + 1], render)
    {
      var t := ps[i].Write(render);
      PlotsTextSnoc(ps, i, render);
      out := before + t;
    }

    /** PgfPlotsAxis::Write, returning what it streams. */
    method Write(render: map<string, string> -> string) returns (out: string)
      ensures out == Text(render)
    {
      out := WriteOpening();
      var items := WriteRegisteredItems(render);
      out := out + items;
      out := out + Closing();
    }
  }
}
