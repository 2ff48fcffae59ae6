/** PgfPlotsPlot: one \addplot command for a histogram or a graph, with the
    nodes attached to it. */
module Plot {
  import opened Wrappers
  import opened Text
  import opened Options
  import opened RootData
  import opened Histogram

  // ---------------------------------------------------------------------------
  // PlotTH1

  /** Whether PgfPlotsPlot::PlotTH1 writes a coordinate for bin xbin: always with
      E1, otherwise only when the bin or the bin before it is non-empty. */
  predicate Shows(style: string, h: Series, xbin: nat)
    requires xbin >= 1
  {
    ErrorMarks(style) || h.BinAt(xbin).content != 0 || h.BinAt(xbin - 1).content != 0
  }

  /** The bins among 1 .. hi - 1 that get a coordinate, in increasing order. */
  function Shown(style: string, h: Series, hi: nat): seq<nat>
  {
    if hi <= 1 then []
    else Shown(style, h, hi - 1) + (if Shows(style, h, hi - 1) then [hi - 1] else [])
  }

  /** Shown lists exactly the bins the selection rule keeps, each once, in
      increasing bin order. */
  lemma {:induction false} ShownExactly(style: string, h: Series, hi: nat)
    ensures forall x :: x in Shown(style, h, hi) <==> 1 <= x < hi && Shows(style, h, x)
    ensures forall i, j | 0 <= i < j < |Shown(style, h, hi)| :: Shown(style, h, hi)[i] < Shown(style, h, hi)[j]
  {
    if hi > 1 {
      var prev := Shown(style, h, hi - 1);
      ShownExactly(style, h, hi - 1);
      assert forall i | 0 <= i < |prev| :: prev[i] in prev;
    }
  }

  /** With E1 every bin 1..N is written. */
  lemma ErrorMarksShowAllBins(style: string, h: Series)
    requires ErrorMarks(style)
    ensures |Shown(style, h, h.NBins() + 1)| == h.NBins()
  {
    ShownAll(style, h, h.NBins() + 1);
  }

  lemma {:induction false} ShownAll(style: string, h: Series, hi: nat)
    requires ErrorMarks(style) && hi >= 1
    ensures |Shown(style, h, hi)| == hi - 1
  {
    if hi > 1 {
      ShownAll(style, h, hi - 1);
    }
  }

  lemma CoordinatesSnoc(h: Series, xs: seq<nat>, x: nat, errors: bool)
    ensures Coordinates(h, xs + [x], errors) == Coordinates(h, xs, errors) + BinCoordinate(h, x, errors)
  {
    assert (xs + [x])[..|xs|] == xs;
  }

  /** What PgfPlotsPlot::PlotTH1 writes before the "};" trailer. */
  function Th1Head(h: Series, style: string): string
  {
    var errors := IncludeErrors(style);
    "\t\\addplot+[" + StyleText(style) + "]\n"
    + "\t\tcoordinates { "
    + (if errors then "" else LeftEdge(h))
    + Coordinates(h, Shown(style, h, h.NBins() + 1), errors)
    + (if !errors && h.BinAt(h.NBins()).content != 0 then RightEdge(h) else "")
  }

  /** What PgfPlotsPlot::PlotTH1 returns. Its `options` argument plays no part.
      The left edge point is written iff there are no error bars; the right one
      iff there are no error bars and the last bin is non-empty. */
  function Th1Text(h: Series, style: string): string
  {
    Th1Head(h, style) + "};\n\n"
  }

  /** PgfPlotsPlot::PlotTH1. */
  method PlotTH1(h: Series, rootStyle: string, options: string) returns (out: string)
    ensures out == Th1Text(h, rootStyle)
  {
    out := WriteStyle(rootStyle);
    var includeErrors := Contains(rootStyle, "E");
    var errorMarks := Contains(rootStyle, "E1");
    out := out + "\t\tcoordinates { ";
    ghost var start := out;
    if !includeErrors {
      out := out + LeftEdge(h);
    }
    assert out == start + (if includeErrors then "" else LeftEdge(h));
    var bins := WriteBins(h, rootStyle, includeErrors, errorMarks);
    out := out + bins;
    ghost var listed := out;
    if !includeErrors && h.BinAt(h.NBins()).content != 0 {
      out := out + RightEdge(h);
    }
    assert out == listed + (if !includeErrors && h.BinAt(h.NBins()).content != 0 then RightEdge(h) else "");
    out := out + "};\n\n";
  }

  /** One bin of the loop: its coordinate is appended exactly when the rule
      keeps it. */
  lemma ShownStep(style: string, h: Series, xbin: nat, errors: bool)
    requires xbin >= 1
    ensures Shows(style, h, xbin) ==>
      Coordinates(h, Shown(style, h, xbin + 1), errors) == Coordinates(h, Shown(style, h, xbin), errors) + BinCoordinate(h, xbin, errors)
    ensures !Shows(style, h, xbin) ==> Coordinates(h, Shown(style, h, xbin + 1), errors) == Coordinates(h, Shown(style, h, xbin), errors)
  {
    var shown := Shown(style, h, xbin);
    if Shows(style, h, xbin) {
      assert Shown(style, h, xbin + 1) == shown + [xbin];
      CoordinatesSnoc(h, shown, xbin, errors);
    } else {
      assert Shown(style, h, xbin + 1) == shown + [];
      assert shown + [] == shown;
    }
  }

  lemma NoneShownYet(style: string, h: Series, errors: bool)
    ensures Coordinates(h, Shown(style, h, 1), errors) == ""
  {
  }

  /** The bin loop of PgfPlotsPlot::PlotTH1. */
  method WriteBins(h: Series, rootStyle: string, includeErrors: bool, errorMarks: bool) returns (out: string)
    requires includeErrors == IncludeErrors(rootStyle) && errorMarks == ErrorMarks(rootStyle)
    ensures out == Coordinates(h, Shown(rootStyle, h, h.NBins() + 1), includeErrors)
  {
    out := "";
    var xbin: nat := 1;
    NoneShownYet(rootStyle, h, includeErrors);
    while xbin <= h.NBins()
      invariant 1 <= xbin <= h.NBins() + 1
      invariant out == Coordinates(h, Shown(rootStyle, h, xbin), includeErrors)
    {
      out := WriteBin(h, rootStyle, xbin, includeErrors, errorMarks, out);
      xbin := xbin + 1;
    }
  }

  /** One pass of the bin loop. */
  method WriteBin(h: Series, rootStyle: string, xbin: nat, includeErrors: bool, errorMarks: bool, before: string)
    returns (out: string)
    requires errorMarks == ErrorMarks(rootStyle)
    requires xbin >= 1 && before == Coordinates(h, Shown(rootStyle, h, xbin), includeErrors)
    ensures out == Coordinates(h, Shown(rootStyle, h, xbin + 1), includeErrors)
  {
    ShownStep(rootStyle, h, xbin, includeErrors);
    out := before;
    if errorMarks || h.BinAt(xbin).content != 0 || h.BinAt(xbin - 1).content != 0 {
      out := out + BinCoordinate(h, xbin, includeErrors);
    }
  }

  // ---------------------------------------------------------------------------
  // PlotTGraph

  /** ROOT graph options: an empty style means "PL"; P draws markers, L lines. */
  predicate Marks(style: string)
  {
    style == "" || Contains(style, "P")
  }

  predicate Lines(style: string)
  {
    style == "" || Contains(style, "L")
  }

  function PointText(p: Point): string
  {
    "(" + Encode(p.x) + "," + Encode(p.y) + ") "
  }

  /** One coordinate per point, in index order. */
  function PointsText(ps: seq<Point>): string
  {
    if ps == [] then "" else PointsText(ps[..|ps| - 1]) + PointText(ps[|ps| - 1])
  }

  /** What PgfPlotsPlot::PlotTGraph writes before the "};" trailer: `options`
      is copied verbatim into the \addplot options. */
  function GraphHead(g: Series, style: string, options: string): string
  {
    GraphStyle(style, options) + "\t\tcoordinates { " + PointsText(g.points)
  }

  /** The \addplot line and its options: "only marks" without lines, "mark=none"
      without markers. */
  function GraphStyle(style: string, options: string): string
  {
    "\t\\addplot+[\n"
    + (if Lines(style) then "" else "\t\t\tonly marks,\n")
    + (if Marks(style) then "" else "\t\t\tmark=none,\n")
    + options
    + "\t\t]\n"
  }

  function GraphText(g: Series, style: string, options: string): string
  {
    GraphHead(g, style, options) + "};\n\n"
  }

  /** PgfPlotsPlot::PlotTGraph. */
  method PlotTGraph(g: Series, rootStyle: string, options: string) returns (out: string)
    ensures out == GraphText(g, rootStyle, options)
  {
    out := WriteGraphStyle(rootStyle, options);
    out := out + "\t\tcoordinates { ";
    ghost var head := out;
    var point := 0;
    while point < |g.points|
      invariant 0 <= point <= |g.points|
      invariant out == head + PointsText(g.points[..point])
    {
      assert g.points[..point + 1][..point] == g.points[..point];
      ghost var before := PointsText(g.points[..point]);
      var next := PointText(g.points[point]);
      assert PointsText(g.points[..point + 1]) == before + next;
      out := out + next;
      Associative(head, before, next);
      point := point + 1;
    }
    assert g.points[..|g.points|] == g.points;
    out := out + "};\n\n";
  }

  /** The flag decoding and the style lines of PlotTGraph. */
  method WriteGraphStyle(rootStyle: string, options: string) returns (out: string)
    ensures out == GraphStyle(rootStyle, options)
  {
    var marks := false;
    var lines := false;
    if rootStyle == "" {
      marks := true;
      lines := true;
    }
    if Contains(rootStyle, "P") {
      marks := true;
    }
    if Contains(rootStyle, "L") {
      lines := true;
    }
    out := "\t\\addplot+[\n";
    if !lines {
      out := out + "\t\t\tonly marks,\n";
    }
    if !marks {
      out := out + "\t\t\tmark=none,\n";
    }
    out := out + options;
    out := out + "\t\t]\n";
  }

  // ---------------------------------------------------------------------------
  // Nodes

  /** PgfPlotsPlot::NodeString. */
  function NodeString(nodeLabel: string, nodeOptions: string): string
  {
    "node" + (if nodeOptions != "" then "[" + nodeOptions + "]" else "") + " {" + nodeLabel + "}"
  }

  function NodeLine(node: (string, string)): string
  {
    "\n\t\t" + NodeString(node.0, node.1)
  }

  /** The text left at the insertion point after inserting every node there in
      turn: the last node inserted comes first. */
  function NodesText(nodes: seq<(string, string)>): string
  {
    if nodes == [] then "" else NodesText(nodes[1..]) + NodeLine(nodes[0])
  }

  /** A node added later appears before all the earlier ones. */
  lemma {:induction false} NodesTextAppend(nodes: seq<(string, string)>, node: (string, string))
    ensures NodesText(nodes + [node]) == NodeLine(node) + NodesText(nodes)
  {
    if nodes == [] {
      assert [] + [node] == [node];
      assert [node][1..] == [];
    } else {
      assert (nodes + [node])[1..] == nodes[1..] + [node];
      NodesTextAppend(nodes[1..], node);
    }
  }

  /** Where the nodes go: just after the last '}' (position 0 if there is none,
      since npos + 1 wraps around). */
  function NodePos(s: string): (r: nat)
    ensures r <= |s|
  {
    NextPos(FindLastIn(s, {'}'}, |s|))
  }

  /** For any text ending with the "};\n\n" trailer the nodes land just before ';'. */
  lemma NodePosBeforeTrailer(a: string)
    ensures NodePos(a + "};\n\n") == |a| + 1
  {
    var s := a + "};\n\n";
    assert s[|a|] == '}';
    assert s[|a| + 1] == ';' && s[|a| + 2] == '\n' && s[|a| + 3] == '\n';
  }

  // ---------------------------------------------------------------------------

  /** A plot item. The C++ object points at a TH1 or a TGraph; here it holds
      the values read from it. */
  class PgfPlotsPlot {
    const series: Series
    const rootStyle: string
    const options: map<string, string>
    var nodes: seq<(string, string)>

    constructor (series: Series, rootStyle: string, options: map<string, string>)
      ensures this.series == series && this.rootStyle == rootStyle && this.options == options
      ensures nodes == []
    {
      this.series := series;
      this.rootStyle := rootStyle;
      this.options := options;
      nodes := [];
    }

    /** Both PgfPlotsPlot constructors: None where they throw, for a null
        object (std::runtime_error) or an options string TikzOptions rejects. */
    static method Create(obj: Option<Series>, rootStyle: string, options: string) returns (r: Option<PgfPlotsPlot>)
      ensures r.Some? <==> obj.Some? && AddSpec(map[], options).ok
      ensures r.Some? ==>
        fresh(r.value) && r.value.series == obj.value && r.value.rootStyle == rootStyle &&
        r.value.options == AddSpec(map[], options).entries && r.value.nodes == []
    {
      var parsed := TikzOptions.Create(options);
      if parsed.None? || obj.None? {
        return None;
      }
      var p := new PgfPlotsPlot(obj.value, rootStyle, parsed.value.entries);
      r := Some(p);
    }

    /** PgfPlotsPlot::AddNode. */
    method AddNode(nodeLabel: string, nodeOptions: string)
      modifies this
      ensures nodes == old(nodes) + [(nodeLabel, nodeOptions)]
    {
      nodes := nodes + [(nodeLabel, nodeOptions)];
    }

    /** The \addplot text before the nodes go in. `render` stands for
        TikzOptions::GetString, which is not part of this model. */
    function Body(render: map<string, string> -> string): string
    {
      if series.IsHist() then Th1Text(series, rootStyle) else GraphText(series, rootStyle, render(options))
    }

    /** What Write emits. */
    function Text(render: map<string, string> -> string): string
      reads this
    {
      var body := Body(render);
      Insert(body, NodePos(body), NodesText(nodes))
    }

    /** What Body writes before the "};" trailer. */
    function BodyHead(render: map<string, string> -> string): string
    {
      if series.IsHist() then Th1Head(series, rootStyle) else GraphHead(series, rootStyle, render(options))
    }

    /** The nodes are inserted between the closing '}' of the coordinate list
        and the ';' after it, latest node first. */
    lemma TextShape(render: map<string, string> -> string)
      ensures Body(render) == BodyHead(render) + "};\n\n"
      ensures Text(render) == BodyHead(render) + "}" + NodesText(nodes) + ";\n\n"
    {
      var a := BodyHead(render);
      var body := Body(render);
      assert body == a + "};\n\n";
      NodePosBeforeTrailer(a);
      assert body[..|a| + 1] == a + "}";
      assert body[|a| + 1..] == ";\n\n";
    }

    /** PgfPlotsPlot::Write, returning what it streams. */
    method Write(render: map<string, string> -> string) returns (out: string)
      ensures out == Text(render)
    {
      var plotStr: string;
      if series.IsHist() {
        plotStr := PlotTH1(series, rootStyle, render(options));
      } else {
        plotStr := PlotTGraph(series, rootStyle, render(options));
      }
      out := InsertNodes(plotStr, nodes);
    }
  }

  /** Inserting at the end of a prefix puts the text right after it. */
  lemma InsertAfter(a: string, rest: string, t: string)
    ensures Insert(a + rest, |a|, t) == a + (t + rest)
  {
    Halves(a, rest);
  }

  /** The node loop of PgfPlotsPlot::Write: every node is inserted at the same
      position of the text. */
  method InsertNodes(plotStr: string, nodes: seq<(string, string)>) returns (out: string)
    ensures out == Insert(plotStr, NodePos(plotStr), NodesText(nodes))
  {
    var loc := NodePos(plotStr);
    ghost var a := plotStr[..loc];
    ghost var b := plotStr[loc..];
    assert plotStr == a + ("" + b);
    out := plotStr;
    var i := 0;
    while i < |nodes|
      invariant 0 <= i <= |nodes|
      invariant out == a + (NodesText(nodes[..i]) + b)
    {
      ghost var done := NodesText(nodes[..i]);
      var line := NodeLine(nodes[i]);
      NodesTextAppend(nodes[..i], nodes[i]);
      assert nodes[..i + 1] == nodes[..i] + [nodes[i]];
      InsertAfter(a, done + b, line);
      out := Insert(out, loc, line);
      Associative(line, done, b);
      i := i + 1;
    }
    assert nodes[..|nodes|] == nodes;
    Associative(a, NodesText(nodes), b);
  }
}
