/** PgfPlotsLegend: the entries of a \legend command and the style options an
    axis writes for it. */
module Legend {
  import opened Text
  import opened Options

  const LegendHeader := "\t\\legend{\n"
  const LegendFooter := "\t}\n"

  /** One entry, copied verbatim between braces. */
  function EntryLine(entry: string): string
  {
    "\t\t{" + entry + "},\n"
  }

  function EntryLines(entries: seq<string>): string
  {
    if entries == [] then "" else EntryLines(entries[..|entries| - 1]) + EntryLine(entries[|entries| - 1])
  }

  /** Number of occurrences of c in s. */
  function Count(s: string, c: char): nat
  {
    if s == [] then 0 else Count(s[..|s| - 1], c) + (if s[|s| - 1] == c then 1 else 0)
  }

  lemma {:induction false} CountAppend(a: string, b: string, c: char)
    ensures Count(a + b, c) == Count(a, c) + Count(b, c)
    decreases |b|
  {
    if b == [] {
      assert a + b == a;
    } else {
      assert (a + b)[..|a + b| - 1] == a + b[..|b| - 1];
      CountAppend(a, b[..|b| - 1], c);
    }
  }

  lemma {:induction false} CountAbsent(s: string, c: char)
    requires c !in s
    ensures Count(s, c) == 0
    decreases |s|
  {
    if s != [] {
      assert c !in s[..|s| - 1];
      CountAbsent(s[..|s| - 1], c);
    }
  }

  lemma EntryLineCount(entry: string)
    requires '\n' !in entry
    ensures Count(EntryLine(entry), '\n') == 1
  {
    CountAppend("\t\t{", entry, '\n');
    CountAppend("\t\t{" + entry, "},\n", '\n');
    CountAbsent(entry, '\n');
    assert "\t\t{"[..2] == "\t\t" && "\t\t"[..1] == "\t";
    assert "},\n"[..2] == "}," && "},"[..1] == "}";
  }

  /** Entries without line breaks give exactly one line each. */
  lemma {:induction false} EntryLinesCount(entries: seq<string>)
    requires forall i | 0 <= i < |entries| :: '\n' !in entries[i]
    ensures Count(EntryLines(entries), '\n') == |entries|
  {
    if entries != [] {
      var init := entries[..|entries| - 1];
      EntryLinesCount(init);
      EntryLineCount(entries[|entries| - 1]);
      CountAppend(EntryLines(init), EntryLine(entries[|entries| - 1]), '\n');
    }
  }

  /** The legend object. `style` is the TikzOptions object GetStyle hands out. */
  class PgfPlotsLegend {
    var entries: seq<string>
    const style: TikzOptions

    constructor ()
      ensures entries == [] && fresh(style) && style.entries == map[]
    {
      entries := [];
      style := new TikzOptions();
    }

    /** PgfPlotsLegend::AddEntry. */
    method AddEntry(entry: string)
      modifies this
      ensures entries == old(entries) + [entry]
    {
      entries := entries + [entry];
    }

    /** What Write emits: the header, one line per entry in insertion order, the footer. */
    function Text(): string
      reads this
    {
      LegendHeader + EntryLines(entries) + LegendFooter
    }

    /** The \legend block has one line per entry plus its first and last line. */
    lemma TextLineCount()
      requires forall i | 0 <= i < |entries| :: '\n' !in entries[i]
      ensures Count(Text(), '\n') == |entries| + 2
    {
      EntryLinesCount(entries);
      CountAppend(LegendHeader, EntryLines(entries), '\n');
      CountAppend(LegendHeader + EntryLines(entries), LegendFooter, '\n');
      assert LegendHeader == "\t\\legend{" + "\n";
      CountAppend("\t\\legend{", "\n", '\n');
      CountAbsent("\t\\legend{", '\n');
      assert LegendFooter == "\t}" + "\n";
      CountAppend("\t}", "\n", '\n');
      CountAbsent("\t}", '\n');
      assert "\n"[..0] == "";
    }

    /** PgfPlotsLegend::Write, returning what it streams. */
    method Write() returns (out: string)
      ensures out == Text()
    {
      out := LegendHeader;
      var i := 0;
      while i < |entries|
        invariant 0 <= i <= |entries|
        invariant out == LegendHeader + EntryLines(entries[..i])
      {
        assert entries[..i + 1][..i] == entries[..i];
        out := out + EntryLine(entries[i]);
        i := i + 1;
      }
      assert entries[..|entries|] == entries;
      out := out + LegendFooter;
    }
  }
}
