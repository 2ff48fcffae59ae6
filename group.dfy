/** PgfPlotsGroupPlot: a group axis holding a fixed grid of sub-plot axes,
    each created the first time it is asked for. */
module Group {
  import opened Wrappers
  import opened Text
  import opened Options
  import opened Plot
  import opened Axis

  /** The range of an unsigned int, where rows * columns wraps around. */
  const UintRange: nat := 0x1_0000_0000

  /** Line 8: the "group style" option of a rows by columns grid. */
  function GroupStyle(rows: nat, columns: nat): string
  {
    "{group size=" + Encode(rows) + " by " + Encode(columns) + "}"
  }

  /** Line 9: the size of the cell vector, rows * columns in unsigned arithmetic. */
  function CellCount(rows: nat, columns: nat): nat
  {
    (rows * columns) % UintRange
  }

  /** The text of one cell: nothing for a cell never asked for. */
  ghost function CellText(c: PgfPlotsAxis?, render: map<string, string> -> string): string
    reads if c == null then {} else c.Footprint()
  {
    if c == null then "" else c.Text(render)
  }

  /** Lines 44-46: the cells in index order. */
  ghost function CellsText(cells: seq<PgfPlotsAxis?>, render: map<string, string> -> string): string
    reads set c, o | c in cells && c != null && o in c.Footprint() :: o
  {
    if cells == [] then "" else CellsText(cells[..|cells| - 1], render) + CellText(cells[|cells| - 1], render)
  }

  lemma CellsTextSnoc(cells: seq<PgfPlotsAxis?>, i: nat, render: map<string, string> -> string)
    requires i < |cells|
    ensures CellsText(cells[..i + 1], render) == CellsText(cells[..i], render) + CellText(cells[i], render)
  {
    assert cells[..i + 1][..i] == cells[..i];
  }

  /** The cells that were created, in index order. */
  function Populated(cells: seq<PgfPlotsAxis?>): (r: seq<PgfPlotsAxis>)
    ensures |r| <= |cells|
    ensures forall i | 0 <= i < |r| :: r[i] in cells
    ensures forall i | 0 <= i < |cells| && cells[i] != null :: cells[i] in r
  {
    if cells == [] then []
    else Populated(cells[..|cells| - 1]) + (if cells[|cells| - 1] == null then [] else [cells[|cells| - 1]])
  }

  /** The concatenated text of some axes, in order. */
  ghost function AxesText(axes: seq<PgfPlotsAxis>, render: map<string, string> -> string): string
    reads set a, o | a in axes && o in a.Footprint() :: o
  {
    if axes == [] then "" else AxesText(axes[..|axes| - 1], render) + axes[|axes| - 1].Text(render)
  }

  /** Writing the grid is writing its created cells one after the other: an
      empty cell contributes nothing, not even a separator. */
  lemma {:induction false} CellsTextPopulated(cells: seq<PgfPlotsAxis?>, render: map<string, string> -> string)
    ensures CellsText(cells, render) == AxesText(Populated(cells), render)
  {
    if cells != [] {
      var init := cells[..|cells| - 1];
      var last := cells[|cells| - 1];
      CellsTextPopulated(init, render);
      if last != null {
        var p := Populated(init) + [last];
        assert p[..|p| - 1] == Populated(init);
      } else {
        assert Populated(cells) == Populated(init);
      }
    }
  }

  /** A grid none of whose cells was asked for writes no cell. */
  lemma {:induction false} EmptyCellsText(n: nat, render: map<string, string> -> string)
    ensures CellsText(seq(n, _ => null), render) == ""
  {
    if n > 0 {
      var cells: seq<PgfPlotsAxis?> := seq(n, _ => null);
      assert cells[..n - 1] == seq(n - 1, _ => null);
      EmptyCellsText(n - 1, render);
    }
  }

  /** rows * columns wraps: a 65536 by 65536 grid has no cells at all. */
  lemma CellCountWraps()
    ensures CellCount(65536, 65536) == 0 && CellCount(3, 2) == 6
  {
  }

  /** Every object a group plot's text reads exists already. */
  lemma FootprintAllocated(g: PgfPlotsGroupPlot)
    ensures forall o | o in g.Footprint() :: allocated(o)
  {
    assert forall o | o in g.axis.Footprint() :: allocated(o);
    forall c | c in g.subPlots && c != null ensures forall o | o in c.Footprint() :: allocated(o) {
    }
  }

  /** Every object the text of some cells reads exists already. */
  lemma CellsAllocated(cells: seq<PgfPlotsAxis?>)
    ensures forall c, o | c in cells && c != null && o in c.Footprint() :: allocated(o)
  {
  }

  /** The group plot: the base axis of kind GroupBase and the cell vector. */
  class PgfPlotsGroupPlot {
    const axis: PgfPlotsAxis
    var subPlots: seq<PgfPlotsAxis?>

    /** The cells are distinct sub-plot axes, none of them the group's own axis. */
    ghost predicate Valid()
      reads this
    {
      axis.kind == GroupBase &&
      (forall i | 0 <= i < |subPlots| && subPlots[i] != null :: subPlots[i] != axis && subPlots[i].kind == SubPlot) &&
      (forall i, j | 0 <= i < j < |subPlots| && subPlots[i] != null :: subPlots[i] != subPlots[j])
    }

    constructor (axis: PgfPlotsAxis, cells: nat)
      requires axis.kind == GroupBase
      ensures this.axis == axis && subPlots == seq(cells, _ => null) && Valid()
    {
      this.axis := axis;
      subPlots := seq(cells, _ => null);
    }

    /** PgfPlotsGroupPlot(rows, columns, options): None where the options string
        makes the base constructor throw. The group style is assigned after the
        options are parsed, so it replaces a "group style" given in them. */
    static method Create(rows: nat, columns: nat, options: string) returns (r: Option<PgfPlotsGroupPlot>)
      requires rows < UintRange && columns < UintRange
      ensures r.Some? <==> AddSpec(map[], options).ok
      ensures r.Some? ==>
        fresh(r.value) && fresh(r.value.axis) && r.value.Valid() &&
        r.value.axis.options == AddSpec(map[], options).entries["group style" := GroupStyle(rows, columns)] &&
        r.value.axis.plots == [] && r.value.axis.legend == null &&
        r.value.subPlots == seq(CellCount(rows, columns), _ => null)
    {
      var base := PgfPlotsAxis.Create(GroupBase, options);
      if base.None? {
        return None;
      }
      var a := base.value;
      a.SetOption("group style", "{group size=" + Encode(rows) + " by " + Encode(columns) + "}");
      var g := new PgfPlotsGroupPlot(a, (rows * columns) % UintRange);
      r := Some(g);
    }

    /** PgfPlotsGroupPlot::GetSubPlot: None for an id outside the grid (the
        runtime_error), otherwise the cell, created empty if it was not yet. */
    method GetSubPlot(id: nat) returns (r: Option<PgfPlotsAxis>)
      requires Valid()
      modifies this
      ensures Valid()
      ensures r.None? <==> id >= |old(subPlots)|
      ensures r.None? ==> subPlots == old(subPlots)
      ensures r.Some? ==>
        |subPlots| == |old(subPlots)| && subPlots == old(subPlots)[id := r.value] &&
        (old(subPlots)[id] != null ==> r.value == old(subPlots)[id]) &&
        (old(subPlots)[id] == null ==>
          fresh(r.value) && r.value.kind == SubPlot && r.value.options == map[] && r.value.plots == [] && r.value.legend == null)
    {
      if id >= |subPlots| {
        return None;
      }
      var cell := subPlots[id];
      if cell == null {
        var created := new PgfPlotsAxis(SubPlot, map[]);
        subPlots := subPlots[id := created];
        cell := created;
      }
      r := Some(cell);
    }

    /** PgfPlotsGroupPlot::AddPlot: the plot goes to cell id, which is created
        when needed; no other cell and not the group's own axis changes. */
    method AddPlot(plot: PgfPlotsPlot, id: nat) returns (status: Status)
      requires Valid()
      modifies this, if id < |subPlots| && subPlots[id] != null then {subPlots[id]} else {}
      ensures Valid()
      ensures id >= |old(subPlots)| ==> status == Thrown && subPlots == old(subPlots)
      ensures id < |old(subPlots)| ==>
        |subPlots| == |old(subPlots)| && subPlots[id] != null &&
        (forall j | 0 <= j < |subPlots| && j != id :: subPlots[j] == old(subPlots)[j])
      ensures id < |old(subPlots)| && old(subPlots)[id] != null ==>
        subPlots[id] == old(subPlots)[id] && subPlots[id].plots == old(subPlots[id].plots) + [plot] &&
        subPlots[id].legend == old(subPlots[id].legend) &&
        Merged(subPlots[id].options, status) == AddPlotSpec(old(subPlots[id].options), plot.series)
      ensures id < |old(subPlots)| && old(subPlots)[id] == null ==>
        fresh(subPlots[id]) && subPlots[id].plots == [plot] && subPlots[id].legend == null &&
        Merged(subPlots[id].options, status) == AddPlotSpec(map[], plot.series)
    {
      var cell := GetSubPlot(id);
      if cell.None? {
        return Thrown;
      }
      status := cell.value.AddPlot(plot);
    }

    /** Everything Text reads. */
    ghost function Footprint(): (r: set<object>)
      reads this, axis, set c | c in subPlots && c != null
      ensures this in r && axis in r && forall c | c in subPlots && c != null :: c in r
    {
      {this} + axis.Footprint() + (set c: PgfPlotsAxis | c in subPlots :: c as object) +
      (set c, o | c in subPlots && c != null && o in c.Footprint() :: o)
    }

    /** What Write emits: the group's own header and options, the created
        cells in index order, and the group's footer. */
    ghost function Text(render: map<string, string> -> string): string
      reads Footprint()
    {
      axis.Opening() + CellsText(subPlots, render) + axis.Closing()
    }

    /** PgfPlotsGroupPlot::WriteRegisteredItems. */
    method WriteRegisteredItems(render: map<string, string> -> string) returns (out: string)
      ensures out == CellsText(subPlots, render)
    {
      var cells := subPlots;
      out := "";
      var i := 0;
      while i < |cells|
        invariant 0 <= i <= |cells|
        invariant out == CellsText(cells[..i], render)
      {
        out := WriteCell(cells, i, out, render);
        i := i + 1;
      }
      assert cells[..|cells|] == cells;
    }

    /** One step of the loop: append cell i if it was created. Writing does
        not change the heap, so the text of the cells before it stays the same. */
    static method WriteCell(cells: seq<PgfPlotsAxis?>, i: nat, before: string, render: map<string, string> -> string)
      returns (out: string)
      requires i < |cells| && before == CellsText(cells[..i], render)
      ensures out == CellsText(cells[..i + 1], render)
    {
      CellsAllocated(cells[..i]);
      var t := "";
      if cells[i] != null {
        t := cells[i].Write(render);
      }
      assert before == CellsText(cells[..i], render);
      CellsTextSnoc(cells, i, render);
      out := before + t;
    }

    /** PgfPlotsAxis::Write on a group plot, returning what it streams. */
    method Write(render: map<string, string> -> string) returns (out: string)
      ensures out == Text(render)
    {
      out := axis.WriteOpening();
      var items := WriteRegisteredItems(render);
      out := out + items;
      out := out + axis.Closing();
    }
  }
}
