/** TikzPicture: the document around the axes — the preamble, an optional
    colorbrewer palette, and the tikzpicture environment holding the axes in
    the order they were added. */
module Picture {
  import opened Text
  import opened Axis
  import opened Group

  /** Line 17: the library a group plot needs, appended once per group plot. */
  const GroupLibrary := "\n\\usepgfplotslibrary{groupplots}"

  /** Line 27: the colorbrewer2 set names SetPalette knows. */
  const PaletteNames: seq<string> := ["Set1", "Set2", "Set3", "Dark2", "Paired", "Pastel1", "Pastel2", "Accent"]

  /** Lines 29-36: a palette is recognised when one of the set names occurs in
      it anywhere, not only at its start. */
  predicate KnownPalette(palette: string)
  {
    exists k | 0 <= k < |PaletteNames| :: Contains(palette, PaletteNames[k])
  }

  const BeginPicture := "\\begin{tikzpicture}\n"
  const EndPicture := "\\end{tikzpicture}\n"

  /** Line 62: the library a palette needs. */
  const PaletteLibrary := "\\usepgfplotslibrary{colorbrewer}"

  /** Line 63: the cycle list naming the palette. */
  function CycleList(palette: string): string
  {
    "\n\\pgfplotsset{cycle list/" + palette + "}\n"
  }

  /** Lines 57-64: the preamble and the palette lines, each only when set. */
  function Head(preamble: string, palette: string): string
  {
    (if preamble != "" then preamble + "\n" else "") +
    (if palette != "" then PaletteLibrary + CycleList(palette) else "")
  }

  /** Lines 57-72: the whole document around the axes' text. */
  function Document(preamble: string, palette: string, body: string): string
  {
    Head(preamble, palette) + BeginPicture + body + EndPicture
  }

  /** The document opens with the preamble when there is one. */
  lemma DocumentOpensWithPreamble(preamble: string, palette: string, body: string)
    requires preamble != ""
    ensures Document(preamble, palette, body)[..|preamble| + 1] == preamble + "\n"
  {
    var p := if palette != "" then PaletteLibrary + CycleList(palette) else "";
    var tail := BeginPicture + body + EndPicture;
    Associative(preamble + "\n", p, BeginPicture);
    Associative(preamble + "\n", p + BeginPicture, body);
    Associative(preamble + "\n", p + BeginPicture + body, EndPicture);
    Halves(preamble + "\n", p + BeginPicture + body + EndPicture);
  }

  /** Without a preamble, the document opens with the palette library when a
      palette is set. */
  lemma DocumentOpensWithPalette(palette: string, body: string)
    requires palette != ""
    ensures Document("", palette, body)[..|PaletteLibrary|] == PaletteLibrary
  {
    var c := CycleList(palette);
    assert Head("", palette) == PaletteLibrary + c;
    Associative(PaletteLibrary, c, BeginPicture);
    Associative(PaletteLibrary, c + BeginPicture, body);
    Associative(PaletteLibrary, c + BeginPicture + body, EndPicture);
    Halves(PaletteLibrary, c + BeginPicture + body + EndPicture);
  }

  /** With neither, the document is the environment alone. */
  lemma DocumentBare(body: string)
    ensures Document("", "", body) == BeginPicture + body + EndPicture
  {
    assert Head("", "") == "";
  }

  /** The document always ends with the axes and the end of the environment. */
  lemma DocumentCloses(preamble: string, palette: string, body: string)
    ensures var d := Document(preamble, palette, body);
      |d| >= |body| + |EndPicture| && d[|d| - |body| - |EndPicture|..] == body + EndPicture
  {
    var h := Head(preamble, palette) + BeginPicture;
    Associative(h, body, EndPicture);
    Halves(h, body + EndPicture);
  }

  /** The objects ItemFootprint looks at. */
  ghost function ItemReads(a: PgfPlotsAxis, g: PgfPlotsGroupPlot?): set<object>
    reads if g == null then {} else {g}
  {
    if g == null then {a} else {g, g.axis} + set c: PgfPlotsAxis | c in g.subPlots :: c as object
  }

  /** Everything the text of one entry of axes_ reads: a plain axis, or the
      group plot the dynamic_cast finds for it. */
  ghost function ItemFootprint(a: PgfPlotsAxis, g: PgfPlotsGroupPlot?): (r: set<object>)
    reads ItemReads(a, g)
    ensures ItemReads(a, g) <= r
  {
    if g == null then a.Footprint() else g.Footprint()
  }

  ghost function ItemText(a: PgfPlotsAxis, g: PgfPlotsGroupPlot?, render: map<string, string> -> string): string
    reads ItemFootprint(a, g)
  {
    if g == null then a.Text(render) else g.Text(render)
  }

  /** The objects the footprints of the entries look at. */
  ghost function ItemsReads(axes: seq<PgfPlotsAxis>, groups: seq<PgfPlotsGroupPlot?>): (r: set<object>)
    requires |axes| == |groups|
    reads set k | 0 <= k < |groups| && groups[k] != null :: groups[k]
    ensures forall k | 0 <= k < |groups| && groups[k] != null :: groups[k] in r
  {
    assert forall k | 0 <= k < |groups| && groups[k] != null :: groups[k] in ItemReads(axes[k], groups[k]);
    set k, o | 0 <= k < |axes| && o in ItemReads(axes[k], groups[k]) :: o
  }

  ghost function ItemsFootprint(axes: seq<PgfPlotsAxis>, groups: seq<PgfPlotsGroupPlot?>): (r: set<object>)
    requires |axes| == |groups|
    reads ItemsReads(axes, groups)
    ensures ItemsReads(axes, groups) <= r
  {
    assert forall k | 0 <= k < |axes| :: ItemReads(axes[k], groups[k]) <= ItemFootprint(axes[k], groups[k]);
    set k, o | 0 <= k < |axes| && o in ItemFootprint(axes[k], groups[k]) :: o
  }

  /** Every object the entries' text reads exists already. */
  lemma ItemsAllocated(axes: seq<PgfPlotsAxis>, groups: seq<PgfPlotsGroupPlot?>)
    requires |axes| == |groups|
    ensures forall o | o in ItemsReads(axes, groups) :: allocated(o)
    ensures forall o | o in ItemsFootprint(axes, groups) :: allocated(o)
  {
    forall k | 0 <= k < |axes| ensures forall o | o in ItemFootprint(axes[k], groups[k]) :: allocated(o) {
      if groups[k] == null {
        assert forall o | o in axes[k].Footprint() :: allocated(o);
      } else {
        FootprintAllocated(groups[k]);
      }
    }
  }

  /** Lines 68-70: the axes in the order they were added. */
  ghost function ItemsText(axes: seq<PgfPlotsAxis>, groups: seq<PgfPlotsGroupPlot?>, render: map<string, string> -> string): string
    requires |axes| == |groups|
    reads ItemsFootprint(axes, groups)
  {
    if axes == [] then ""
    else ItemsText(axes[..|axes| - 1], groups[..|groups| - 1], render) + ItemText(axes[|axes| - 1], groups[|groups| - 1], render)
  }

  lemma ItemsTextSnoc(axes: seq<PgfPlotsAxis>, groups: seq<PgfPlotsGroupPlot?>, i: nat, render: map<string, string> -> string)
    requires |axes| == |groups| && i < |axes|
    ensures ItemsText(axes[..i + 1], groups[..i + 1], render) == ItemsText(axes[..i], groups[..i], render) + ItemText(axes[i], groups[i], render)
  {
    assert axes[..i + 1][..i] == axes[..i];
    assert groups[..i + 1][..i] == groups[..i];
  }

  /** The picture. axes_ holds plain axes and group plots alike; groups[k] is
      the group plot axes[k] belongs to, or null for a plain axis. options_ is
      stored but never written. */
  class TikzPicture {
    const options: string
    var preamble: string
    var palette: string
    var axes: seq<PgfPlotsAxis>
    var groups: seq<PgfPlotsGroupPlot?>

    ghost predicate Valid()
      reads this
    {
      |axes| == |groups| && forall k | 0 <= k < |groups| && groups[k] != null :: groups[k].axis == axes[k]
    }

    /** TikzPicture(options, preamble). */
    constructor (options: string, preamble: string)
      ensures this.options == options && this.preamble == preamble && palette == "" && axes == [] && groups == []
      ensures Valid()
    {
      this.options := options;
      this.preamble := preamble;
      palette := "";
      axes := [];
      groups := [];
    }

    /** TikzPicture::Add for an axis that is not a group plot. A group plot's base
        axis only reaches the picture through AddGroup, where the cast succeeds. */
    method AddAxis(a: PgfPlotsAxis)
      requires Valid()
      requires a.kind != GroupBase
      modifies this
      ensures Valid()
      ensures axes == old(axes) + [a] && groups == old(groups) + [null]
      ensures preamble == old(preamble) && palette == old(palette)
    {
      axes := axes + [a];
      groups := groups + [null];
    }

    /** TikzPicture::Add for a group plot: the dynamic_cast succeeds and the
        group library is appended to the preamble, once per group plot added. */
    method AddGroup(g: PgfPlotsGroupPlot)
      requires Valid()
      modifies this
      ensures Valid()
      ensures axes == old(axes) + [g.axis] && groups == old(groups) + [g]
      ensures preamble == old(preamble) + GroupLibrary && palette == old(palette)
    {
      axes := axes + [g.axis];
      groups := groups + [g];
      preamble := preamble + GroupLibrary;
    }

    /** TikzPicture::SetPalette. The name is stored whether or not it is
        recognised; found is false exactly where the source warns. */
    method SetPalette(name: string) returns (found: bool)
      modifies this
      ensures found <==> KnownPalette(name)
      ensures palette == name && preamble == old(preamble) && axes == old(axes) && groups == old(groups)
    {
      found := false;
      var k := 0;
      while k < |PaletteNames|
        invariant 0 <= k <= |PaletteNames|
        invariant !found
        invariant forall j | 0 <= j < k :: !Contains(name, PaletteNames[j])
      {
        if Contains(name, PaletteNames[k]) {
          found := true;
          break;
        }
        k := k + 1;
      }
      palette := name;
    }

    /** What Write emits. */
    ghost function Text(render: map<string, string> -> string): string
      requires Valid()
      reads this, set k | 0 <= k < |groups| && groups[k] != null :: groups[k]
      reads ItemsReads(axes, groups), ItemsFootprint(axes, groups)
    {
      Document(preamble, palette, ItemsText(axes, groups, render))
    }

    /** One step of the loop of lines 68-70. Writing does not change the heap,
        so the text of the axes before it stays the same. */
    static method WriteItem(axes: seq<PgfPlotsAxis>, groups: seq<PgfPlotsGroupPlot?>, i: nat, before: string,
                            render: map<string, string> -> string) returns (out: string)
      requires |axes| == |groups| && i < |axes| && before == ItemsText(axes[..i], groups[..i], render)
      ensures out == ItemsText(axes[..i + 1], groups[..i + 1], render)
    {
      ItemsAllocated(axes[..i], groups[..i]);
      var t: string;
      if groups[i] == null {
        t := axes[i].Write(render);
      } else {
        t := groups[i].Write(render);
      }
      assert before == ItemsText(axes[..i], groups[..i], render);
      ItemsTextSnoc(axes, groups, i, render);
      out := before + t;
    }

    /** TikzPicture::Write, returning what it streams instead of writing a file. */
    method Write(render: map<string, string> -> string) returns (out: string)
      requires Valid()
      ensures out == Text(render)
    {
      var head := "";
      if preamble != "" {
        head := preamble + "\n";
      }
      var colors := "";
      if palette != "" {
        colors := PaletteLibrary + CycleList(palette);
      }
      assert head + colors == Head(preamble, palette);
      var items := axes;
      var kinds := groups;
      var body := "";
      var i := 0;
      assert items[..0] == [] && kinds[..0] == [];
      while i < |items|
        invariant 0 <= i <= |items|
        invariant body == ItemsText(items[..i], kinds[..i], render)
      {
        body := WriteItem(items, kinds, i, body, render);
        i := i + 1;
      }
      assert items[..|items|] == items && kinds[..|kinds|] == kinds;
      out := head + colors + BeginPicture + body + EndPicture;
    }
  }

  /** Palette recognition looks for the set names anywhere in the name. */
  lemma PaletteExamples()
    ensures KnownPalette("Set1") && KnownPalette("myDark2") && !KnownPalette("Blues")
  {
    assert OccursAt("Set1", PaletteNames[0], 0);
    assert OccursAt("myDark2", PaletteNames[3], 2);
    forall k | 0 <= k < |PaletteNames| ensures !Contains("Blues", PaletteNames[k]) {
      FirstCharAbsent("Blues", PaletteNames[k]);
    }
  }
}
