/** The ROOT objects the plotting classes read (TH1, TH2, TGraph and their TAxis),
    reduced to the values the code asks them for. Numbers are integers: the code
    only compares, adds and prints them. */
module RootData {

  /** Which ROOT class the object is: the variant tag replaces the casts. */
  datatype Kind = Hist1D | Hist2D | Graph

  /** A TAxis: GetXmin and GetXmax. */
  datatype Extent = Extent(min: int, max: int)

  /** One histogram bin: GetBinLowEdge, GetBinCenter, GetBinWidth,
      GetBinContent and GetBinError. */
  datatype Bin = Bin(lowEdge: int, center: int, width: int, content: int, error: int)

  datatype Point = Point(x: int, y: int)

  /** A histogram or graph. `bins` are the regular bins 1..N; bin 0 is the
      underflow and bin N + 1 the overflow bin, as in ROOT. `contentMin` and
      `contentMax` are what GetMinimumAndMaximum reports. */
  datatype Series = Series(
    kind: Kind,
    xAxis: Extent, yAxis: Extent, zAxis: Extent,
    xTitle: string, yTitle: string, zTitle: string,
    contentMin: int, contentMax: int,
    underflow: Bin, bins: seq<Bin>, overflow: Bin,
    points: seq<Point>)
  {
    /** GetNbinsX. */
    function NBins(): nat
    {
      |bins|
    }

    /** The bin with ROOT's bin number i. */
    function BinAt(i: nat): Bin
    {
      if i == 0 then underflow else if i <= |bins| then bins[i - 1] else overflow
    }

    predicate IsHist()
    {
      kind.Hist1D? || kind.Hist2D?
    }
  }
}
