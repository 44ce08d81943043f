/**
 * RootPlot: a scatter plot with error bars inside a plot frame. Construction
 * validates its ValueSets, builds the toolkit graph for the 2-D case only, and
 * registers the plot with its parent frame; destruction unregisters it.
 */
module RootPlots {
  import opened Common
  import opened FrameLists
  import opened ValueSets

  predicate IsUpper(c: char)
  {
    'A' <= c <= 'Z'
  }

  /** tolower in the "C" locale: upper-case ASCII letters map to lower case, all else is kept. */
  function ToLower(c: char): (r: char)
    ensures !IsUpper(r)
    ensures !IsUpper(c) ==> r == c
    ensures IsUpper(c) ==> 'a' <= r <= 'z' && r as int - c as int == 'a' as int - 'A' as int
  {
    if IsUpper(c) then (c as int - 'A' as int + 'a' as int) as char else c
  }

  /**
   * The style lower-casing loop: every character of the string is replaced, in
   * place, by its tolower.
   */
  method LowerCase(style: string) returns (lc: string)
    ensures |lc| == |style|
    ensures forall i :: 0 <= i < |style| ==> lc[i] == ToLower(style[i])
    ensures forall i :: 0 <= i < |lc| ==> !IsUpper(lc[i])
  {
    lc := style;
    for i := 0 to |lc|
      invariant |lc| == |style|
      invariant forall k :: 0 <= k < i ==> lc[k] == ToLower(style[k])
      invariant forall k :: i <= k < |lc| ==> lc[k] == style[k]
    {
      lc := lc[i := ToLower(lc[i])];
    }
  }

  /** Lower-casing twice changes nothing more than lower-casing once. */
  lemma LowerCaseIdempotent(style: string, lc: string, lc2: string)
    requires |lc| == |style| && forall i :: 0 <= i < |style| ==> lc[i] == ToLower(style[i])
    requires |lc2| == |lc| && forall i :: 0 <= i < |lc| ==> lc2[i] == ToLower(lc[i])
    ensures lc2 == lc
  {
    forall i | 0 <= i < |lc|
      ensures lc2[i] == lc[i]
    {
      assert !IsUpper(lc[i]);
    }
  }

  /** The toolkit's TGraphErrors: point count, x and y values, x and y errors, and title. */
  datatype Graph = GraphErrors(size: nat, x: seq<real>, y: seq<real>, ex: seq<real>, ey: seq<real>, title: string)

  /** The toolkit reads `size` entries from each of the four arrays it is given. */
  predicate InBounds(g: Graph)
  {
    |g.x| == g.size && |g.y| == g.size && |g.ex| == g.size && |g.ey| == g.size
  }

  /**
   * The parent plot frame's list of plots. Its addPlot and removePlot are
   * declared but their bodies are not part of this model; they are taken to
   * append and to erase every occurrence, like the engine's frame list.
   */
  class PlotFrame {
    var plots: seq<Handle>

    constructor ()
      ensures plots == []
    {
      plots := [];
    }

    method AddPlot(plot: Handle)
      modifies this
      ensures plots == old(plots) + [plot]
    {
      plots := plots + [plot];
    }

    method RemovePlot(plot: Handle)
      modifies this
      ensures plots == Without(old(plots), plot)
      ensures plot !in plots
    {
      WithoutCounts(plots, plot);
      plots := Without(plots, plot);
    }
  }

  class RootPlot {
    /** This plot's address, under which its parent lists it. */
    const handle: Handle
    /** m_parent: may be null. */
    const parent: PlotFrame?
    /** m_graph: never null once construction has succeeded. */
    const graph: Graph

    constructor Init(handle: Handle, parent: PlotFrame?, graph: Graph)
      ensures this.handle == handle && this.parent == parent && this.graph == graph
    {
      this.handle := handle;
      this.parent := parent;
      this.graph := graph;
    }

    /** The destructor: unregister from a non-null parent (deleting the graph is the toolkit's business). */
    method Destroy()
      modifies parent
      ensures parent != null ==> parent.plots == Without(old(parent.plots), handle)
      ensures parent != null ==> handle !in parent.plots
    {
      if parent != null {
        parent.RemovePlot(handle);
      }
    }
  }

  /**
   * The constructor RootPlot(parent, style, title, x, y, z): x and y must have
   * the same size, the style is lower-cased, and only the 2-D case (empty z)
   * yields a graph; anything else is a logic error naming the style as given.
   * On success the plot is registered with a non-null parent.
   */
  method Create(handle: Handle, parent: PlotFrame?, style: string, title: string, x: ValueSet, y: ValueSet, z: ValueSet)
    returns (r: Result<RootPlot>)
    modifies parent
    ensures r.Ok? <==> Size(x) == Size(y) && IsEmpty(z)
    ensures Size(x) != Size(y) ==> r == Err(LogicError("RootPlot: x and y ValueSets do not have same size"))
    ensures Size(x) == Size(y) && !IsEmpty(z) ==> r == Err(LogicError("RootPlot: could not create a plot for style " + style))
    ensures r.Err? && parent != null ==> parent.plots == old(parent.plots)
    ensures r.Ok? ==> fresh(r.value) && r.value.handle == handle && r.value.parent == parent
    ensures r.Ok? ==> r.value.graph == GraphErrors(Size(x), GetValues(x), GetValues(y), GetSpreads(x), GetSpreads(y), title)
    ensures r.Ok? ==> InBounds(r.value.graph)
    ensures r.Ok? && parent != null ==> parent.plots == old(parent.plots) + [handle]
  {
    if Size(x) != Size(y) {
      return Err(LogicError("RootPlot: x and y ValueSets do not have same size"));
    }
    // The lower-cased style is computed but, as in the constructor, not used afterwards.
    var lcStyle := LowerCase(style);
    var graph: Option<Graph> := None;
    if IsEmpty(z) {
      graph := Some(GraphErrors(Size(x), GetValues(x), GetValues(y), GetSpreads(x), GetSpreads(y), title));
    }
    if graph.None? {
      return Err(LogicError("RootPlot: could not create a plot for style " + style));
    }
    var plot := new RootPlot.Init(handle, parent, graph.value);
    if parent != null {
      parent.AddPlot(handle);
    }
    r := Ok(plot);
  }

  /** A plot created under a parent and then destroyed leaves the parent's list as it was. */
  method PlotLifetime(handle: Handle, parent: PlotFrame, style: string, x: ValueSet, y: ValueSet, z: ValueSet)
    requires handle !in parent.plots
    modifies parent
    ensures parent.plots == old(parent.plots)
  {
    var r := Create(handle, parent, style, "", x, y, z);
    if r.Ok? {
      r.value.Destroy();
      RegisterThenUnregister(old(parent.plots), handle);
    }
  }
}
