/**
 * ValueSet: paired values and spreads (error bars) describing plotted points.
 * A constructed ValueSet always holds as many spreads as values; the subset
 * type ValueSet carries that class invariant.
 */
module ValueSets {
  import opened Common

  datatype ValueSetData = ValueSetData(values: seq<real>, spreads: seq<real>)

  /** The class invariant the constructor establishes: one spread per value. */
  type ValueSet = v: ValueSetData | |v.spreads| == |v.values| witness ValueSetData([], [])

  /**
   * The constructor ValueSet(values, spreads). More spreads than values is a
   * logic error; fewer spreads are padded with zeros up to the number of values.
   */
  method Construct(values: seq<real>, spreads: seq<real>) returns (r: Result<ValueSet>)
    ensures r.Ok? <==> |spreads| <= |values|
    ensures r.Err? ==> r.error == LogicError("st_graph::ValueSet constructor was passed fewer values than spreads")
    ensures r.Ok? ==> r.value.values == values
    ensures r.Ok? ==> |r.value.spreads| == |values|
    ensures r.Ok? ==> r.value.spreads == spreads + Zeros(|values| - |spreads|)
    ensures r.Ok? ==> forall i :: 0 <= i < |spreads| ==> r.value.spreads[i] == spreads[i]
    ensures r.Ok? ==> forall i :: |spreads| <= i < |values| ==> r.value.spreads[i] == 0.0
    ensures r.Ok? && |spreads| == |values| ==> r.value == ValueSetData(values, spreads)
  {
    var padded := spreads;
    if |values| < |spreads| {
      return Err(LogicError("st_graph::ValueSet constructor was passed fewer values than spreads"));
    } else if |values| > |spreads| {
      // resize(values.size(), 0.): append zeros one at a time.
      while |padded| < |values|
        invariant |spreads| <= |padded| <= |values|
        invariant padded == spreads + Zeros(|padded| - |spreads|)
        decreases |values| - |padded|
      {
        padded := padded + [0.0];
      }
    }
    assert padded == spreads + Zeros(|values| - |spreads|);
    r := Ok(ValueSetData(values, padded));
  }

  /** getValues(): the values exactly as passed to the constructor. */
  function GetValues(v: ValueSet): (r: seq<real>)
    ensures |r| == |GetSpreads(v)|
  {
    v.values
  }

  /** getSpreads(): one spread per value. */
  function GetSpreads(v: ValueSet): (r: seq<real>)
    ensures |r| == |v.values|
  {
    v.spreads
  }

  /** size(): the number of points. */
  function Size(v: ValueSet): (n: nat)
    ensures n == |GetValues(v)| && n == |GetSpreads(v)|
  {
    |v.values|
  }

  /** empty(): whether the set holds no points, neither values nor spreads. */
  function IsEmpty(v: ValueSet): (b: bool)
    ensures b <==> GetValues(v) == [] && GetSpreads(v) == []
  {
    Size(v) == 0
  }
}
