/**
 * RootPlotHist: a 1-D or 2-D histogram plot. The user describes each axis as a
 * sequence of (low, high) bin intervals; the toolkit wants an edge array with
 * one more entry than there are bins, and numbers its bins from 0 (underflow)
 * to N + 1 (overflow). Bin contents are modelled as an array of N + 2 cells
 * (2-D: (Nx + 2) x (Ny + 2)).
 */
module RootPlotHists {
  import opened Common
  import opened FrameLists
  import opened RootEngines

  /** One bin interval, PlotHist::Interval_t. */
  datatype Interval = Interval(low: real, high: real)

  /** The edges the toolkit wants: every interval's low end, then the last interval's high end. */
  function Edges(intervals: seq<Interval>): (r: seq<real>)
    requires intervals != []
    ensures |r| == |intervals| + 1
    ensures forall i :: 0 <= i < |intervals| ==> r[i] == intervals[i].low
    ensures r[|intervals|] == intervals[|intervals| - 1].high
  {
    seq(|intervals|, i requires 0 <= i < |intervals| => intervals[i].low) + [intervals[|intervals| - 1].high]
  }

  /** The bins the toolkit reads back from an edge array: bin i runs from edge i to edge i + 1. */
  function BinsOf(edges: seq<real>): (r: seq<Interval>)
    requires |edges| >= 1
    ensures |r| == |edges| - 1
  {
    seq(|edges| - 1, i requires 0 <= i < |edges| - 1 => Interval(edges[i], edges[i + 1]))
  }

  /** Each bin ends where the next one starts: the intervals leave no gap and do not overlap. */
  predicate Contiguous(intervals: seq<Interval>)
  {
    forall i :: 0 <= i < |intervals| - 1 ==> intervals[i].high == intervals[i + 1].low
  }

  /**
   * The conversion is lossless exactly for contiguous intervals: the toolkit's
   * bins are the user's intervals if and only if each interval ends where the
   * next begins.
   */
  lemma EdgesRoundTrip(intervals: seq<Interval>)
    requires intervals != []
    ensures BinsOf(Edges(intervals)) == intervals <==> Contiguous(intervals)
  {
    var n := |intervals|;
    var e := Edges(intervals);
    var b := BinsOf(e);
    if Contiguous(intervals) {
      forall i | 0 <= i < n
        ensures b[i] == intervals[i]
      {
        if i < n - 1 {
          assert e[i + 1] == intervals[i + 1].low == intervals[i].high;
        }
      }
    }
    if b == intervals {
      forall i | 0 <= i < n - 1
        ensures intervals[i].high == intervals[i + 1].low
      {
        assert b[i].high == e[i + 1];
      }
    }
  }

  /**
   * Only the low ends and the last high end reach the toolkit: two interval
   * sequences that agree on those give the same edges, whatever the other
   * intervals' high ends are.
   */
  lemma EdgesIgnoreInnerHighEnds(a: seq<Interval>, b: seq<Interval>)
    requires a != [] && |a| == |b|
    requires forall i :: 0 <= i < |a| ==> a[i].low == b[i].low
    requires a[|a| - 1].high == b[|b| - 1].high
    ensures Edges(a) == Edges(b)
  {
    var ea, eb := Edges(a), Edges(b);
    forall i | 0 <= i < |ea|
      ensures ea[i] == eb[i]
    {
    }
  }

  /**
   * createIntervals: fill a fresh array with the edges. No intervals at all is
   * a logic error.
   */
  method CreateIntervals(intervals: seq<Interval>) returns (r: Result<array<real>>)
    ensures r.Err? <==> intervals == []
    ensures r.Err? ==> r.error == LogicError("RootPlotHist::createIntervals was given invalid intervals")
    ensures r.Ok? ==> fresh(r.value) && r.value[..] == Edges(intervals)
  {
    var n := |intervals|;
    if 0 < n {
      var edges := new real[n + 1];
      for i := 0 to n
        invariant forall k :: 0 <= k < i ==> edges[k] == intervals[k].low
      {
        edges[i] := intervals[i].low;
      }
      edges[n] := intervals[n - 1].high;
      assert edges[..] == Edges(intervals);
      r := Ok(edges);
    } else {
      r := Err(LogicError("RootPlotHist::createIntervals was given invalid intervals"));
    }
  }

  class RootPlotHist {
    /** This plot's address, under which it is registered with the engine. */
    const handle: Handle
    const engine: RootEngine
    const title: string
    /** m_x_intervals, m_y_intervals: the edge arrays handed to the toolkit. */
    const xEdges: array<real>
    const yEdges: array?<real>
    /** m_hist1: the bins of a 1-D histogram, underflow and overflow included. */
    const hist1: array?<real>
    /** m_hist2: the bins of a 2-D histogram, underflow and overflow rows and columns included. */
    const hist2: array2?<real>

    /** Exactly one histogram exists, with one cell per bin plus underflow and overflow. */
    ghost predicate Valid()
    {
      && (hist1 == null <==> hist2 != null)
      && (hist2 == null <==> yEdges == null)
      && (hist1 != null ==> hist1.Length == xEdges.Length + 1)
      && (hist2 != null ==> hist2.Length0 == xEdges.Length + 1 && hist2.Length1 == yEdges.Length + 1)
    }

    constructor Init1D(handle: Handle, engine: RootEngine, title: string, xEdges: array<real>, hist1: array<real>)
      requires hist1.Length == xEdges.Length + 1
      ensures Valid()
      ensures this.handle == handle && this.engine == engine && this.title == title
      ensures this.xEdges == xEdges && this.hist1 == hist1 && yEdges == null && hist2 == null
    {
      this.handle := handle;
      this.engine := engine;
      this.title := title;
      this.xEdges := xEdges;
      this.yEdges := null;
      this.hist1 := hist1;
      this.hist2 := null;
    }

    constructor Init2D(handle: Handle, engine: RootEngine, title: string, xEdges: array<real>, yEdges: array<real>,
                       hist2: array2<real>)
      requires hist2.Length0 == xEdges.Length + 1 && hist2.Length1 == yEdges.Length + 1
      ensures Valid()
      ensures this.handle == handle && this.engine == engine && this.title == title
      ensures this.xEdges == xEdges && this.yEdges == yEdges && this.hist2 == hist2 && hist1 == null
    {
      this.handle := handle;
      this.engine := engine;
      this.title := title;
      this.xEdges := xEdges;
      this.yEdges := yEdges;
      this.hist1 := null;
      this.hist2 := hist2;
    }

    /**
     * set(index, value) on a 1-D plot: user bin index goes to toolkit bin
     * index + 1, so user bins 0..N-1 are toolkit bins 1..N and the underflow
     * bin is never written by a non-negative index. On a plot without a 1-D
     * histogram it is a logic error and nothing changes.
     */
    method Set(index: int, value: real) returns (o: Outcome)
      requires Valid()
      requires hist1 != null ==> -1 <= index < hist1.Length - 1
      modifies hist1
      ensures o.Fail? <==> hist1 == null
      ensures o.Fail? ==> o.error == LogicError("RootPlotHist::set(index, value) was called for a non-1D histogram")
      ensures hist1 != null ==> hist1[index + 1] == value
      ensures hist1 != null ==> forall b :: 0 <= b < hist1.Length && b != index + 1 ==> hist1[b] == old(hist1[b])
      ensures hist1 != null && 0 <= index ==> hist1[0] == old(hist1[0])
    {
      if hist1 == null {
        return Fail(LogicError("RootPlotHist::set(index, value) was called for a non-1D histogram"));
      }
      hist1[index + 1] := value;
      o := Pass;
    }

    /**
     * set(x_index, y_index, value) on a 2-D plot: writes toolkit bin
     * (x_index + 1, y_index + 1) and no other. On a plot without a 2-D
     * histogram it is a logic error and nothing changes.
     */
    method Set2D(xIndex: int, yIndex: int, value: real) returns (o: Outcome)
      requires Valid()
      requires hist2 != null ==> -1 <= xIndex < hist2.Length0 - 1 && -1 <= yIndex < hist2.Length1 - 1
      modifies hist2
      ensures o.Fail? <==> hist2 == null
      ensures o.Fail? ==> o.error == LogicError("RootPlotHist::set(x_index, y_index, value) was called for a non-2D histogram")
      ensures hist2 != null ==> hist2[xIndex + 1, yIndex + 1] == value
      ensures hist2 != null ==>
        forall i, j :: 0 <= i < hist2.Length0 && 0 <= j < hist2.Length1 && (i, j) != (xIndex + 1, yIndex + 1) ==>
          hist2[i, j] == old(hist2[i, j])
    {
      if hist2 == null {
        return Fail(LogicError("RootPlotHist::set(x_index, y_index, value) was called for a non-2D histogram"));
      }
      hist2[xIndex + 1, yIndex + 1] := value;
      o := Pass;
    }

    /** dimensionality(): 2 exactly when the 2-D histogram exists, 1 otherwise. */
    function Dimensionality(): (d: int)
      ensures d == 2 <==> hist2 != null
      ensures d == 1 <==> hist2 == null
    {
      if hist2 != null then 2 else 1
    }

    /** The destructor: unregister from the engine (freeing the toolkit objects is not modelled). */
    method Destroy()
      modifies engine
      ensures engine.frames == Without(old(engine.frames), handle)
      ensures handle !in engine.frames
    {
      engine.RemoveFrame(handle);
    }
  }

  /**
   * The 1-D constructor with its checks in a safe order: the intervals are
   * converted first, and only a plot that is fully constructed is registered.
   */
  method Create1D(handle: Handle, engine: RootEngine, title: string, intervals: seq<Interval>)
    returns (r: Result<RootPlotHist>)
    modifies engine
    ensures r.Err? <==> intervals == []
    ensures r.Err? ==> r.error == LogicError("RootPlotHist::createIntervals was given invalid intervals")
    ensures r.Err? ==> engine.frames == old(engine.frames)
    ensures r.Ok? ==> engine.frames == old(engine.frames) + [handle]
    ensures r.Ok? ==> fresh(r.value) && fresh(r.value.xEdges) && fresh(r.value.hist1)
    ensures r.Ok? ==> r.value.Valid() && r.value.handle == handle && r.value.engine == engine
    ensures r.Ok? ==> r.value.Dimensionality() == 1
    ensures r.Ok? ==> r.value.xEdges[..] == Edges(intervals)
    ensures r.Ok? ==> r.value.hist1[..] == Zeros(|intervals| + 2)
  {
    var edges :- CreateIntervals(intervals);
    engine.AddFrame(handle);
    var bins := new real[|intervals| + 2](_ => 0.0);
    var plot := new RootPlotHist.Init1D(handle, engine, title, edges, bins);
    r := Ok(plot);
  }

  /** The 2-D constructor, in the same safe order. */
  method Create2D(handle: Handle, engine: RootEngine, title: string, xIntervals: seq<Interval>, yIntervals: seq<Interval>)
    returns (r: Result<RootPlotHist>)
    modifies engine
    ensures r.Err? <==> xIntervals == [] || yIntervals == []
    ensures r.Err? ==> r.error == LogicError("RootPlotHist::createIntervals was given invalid intervals")
    ensures r.Err? ==> engine.frames == old(engine.frames)
    ensures r.Ok? ==> engine.frames == old(engine.frames) + [handle]
    ensures r.Ok? ==> fresh(r.value) && fresh(r.value.xEdges) && fresh(r.value.yEdges) && fresh(r.value.hist2)
    ensures r.Ok? ==> r.value.Valid() && r.value.handle == handle && r.value.engine == engine
    ensures r.Ok? ==> r.value.Dimensionality() == 2
    ensures r.Ok? ==> r.value.xEdges[..] == Edges(xIntervals) && r.value.yEdges[..] == Edges(yIntervals)
    ensures r.Ok? ==> r.value.hist2.Length0 == |xIntervals| + 2 && r.value.hist2.Length1 == |yIntervals| + 2
    ensures r.Ok? ==> forall i, j :: 0 <= i < r.value.hist2.Length0 && 0 <= j < r.value.hist2.Length1 ==> r.value.hist2[i, j] == 0.0
  {
    var xEdges :- CreateIntervals(xIntervals);
    var yEdges :- CreateIntervals(yIntervals);
    engine.AddFrame(handle);
    var bins := new real[|xIntervals| + 2, |yIntervals| + 2]((_, _) => 0.0);
    var plot := new RootPlotHist.Init2D(handle, engine, title, xEdges, yEdges, bins);
    r := Ok(plot);
  }

  /**
   * The 1-D constructor as written: init() registers the plot with the engine
   * before createIntervals can throw, and a constructor that throws never runs
   * the destructor, so a failed construction leaves the engine holding the
   * address of an object that does not exist.
   */
  method Create1DAsWritten(handle: Handle, engine: RootEngine, title: string, intervals: seq<Interval>)
    returns (r: Result<RootPlotHist>)
    modifies engine
    ensures r.Err? <==> intervals == []
    ensures r.Err? ==> r.error == LogicError("RootPlotHist::createIntervals was given invalid intervals")
    ensures engine.frames == old(engine.frames) + [handle]
    ensures r.Ok? ==> fresh(r.value) && r.value.Valid() && r.value.handle == handle
  {
    engine.AddFrame(handle);
    var edges :- CreateIntervals(intervals);
    var bins := new real[|intervals| + 2](_ => 0.0);
    var plot := new RootPlotHist.Init1D(handle, engine, title, edges, bins);
    r := Ok(plot);
  }

  /**
   * The 2-D constructor as written: init() registers the plot first, so an
   * empty interval sequence on either axis leaves the registration behind.
   */
  method Create2DAsWritten(handle: Handle, engine: RootEngine, title: string, xIntervals: seq<Interval>,
                           yIntervals: seq<Interval>)
    returns (r: Result<RootPlotHist>)
    modifies engine
    ensures r.Err? <==> xIntervals == [] || yIntervals == []
    ensures r.Err? ==> r.error == LogicError("RootPlotHist::createIntervals was given invalid intervals")
    ensures engine.frames == old(engine.frames) + [handle]
    ensures r.Ok? ==> fresh(r.value) && r.value.Valid() && r.value.handle == handle && r.value.Dimensionality() == 2
  {
    engine.AddFrame(handle);
    var xEdges :- CreateIntervals(xIntervals);
    var yEdges :- CreateIntervals(yIntervals);
    var bins := new real[|xIntervals| + 2, |yIntervals| + 2]((_, _) => 0.0);
    var plot := new RootPlotHist.Init2D(handle, engine, title, xEdges, yEdges, bins);
    r := Ok(plot);
  }

  /**
   * The discrepancy on a concrete input: constructing a 1-D plot from no
   * intervals fails, yet the engine's registry still names the plot, and the
   * next run() would display it.
   */
  method DanglingRegistration() returns (failed: bool, registry: seq<Handle>)
    ensures failed && registry == [Handle(1)]
  {
    var engine := new RootEngine();
    var r := Create1DAsWritten(Handle(1), engine, "empty", []);
    failed := r.Err?;
    registry := engine.frames;
  }

  /** The corrected constructor on the same input: it fails and the registry stays empty. */
  method NoDanglingRegistration() returns (failed: bool, registry: seq<Handle>)
    ensures failed && registry == []
  {
    var engine := new RootEngine();
    var r := Create1D(Handle(1), engine, "empty", []);
    failed := r.Err?;
    registry := engine.frames;
  }

  /**
   * A histogram plot constructed (in the corrected order) and then destroyed
   * leaves its engine's registry as it was, on either dimensionality and
   * whether or not construction fails.
   */
  method PlotHistLifetime(handle: Handle, engine: RootEngine, xIntervals: seq<Interval>, yIntervals: seq<Interval>,
                          twoD: bool)
    requires handle !in engine.frames
    modifies engine
    ensures engine.frames == old(engine.frames)
  {
    var r;
    if twoD {
      r := Create2D(handle, engine, "", xIntervals, yIntervals);
    } else {
      r := Create1D(handle, engine, "", xIntervals);
    }
    if r.Ok? {
      r.value.Destroy();
      RegisterThenUnregister(old(engine.frames), handle);
    }
  }
}
