/** Converting one row, and the rows of a batch, with a fitted filter. */
module Conversion {
  import opened Data
  import opened Projection
  import opened Setup
  import Schema

  /** Output slots a converted row fills: one per component, plus the class. */
  function FitWidth(f: Fit): nat {
    Schema.Width(f.numComponents, f.hasClass)
  }

  /**
   * convertInstance: component j is the cosine of bias j plus the weighted
   * sum of the row's first numAttribs raw values (no preprocessing is applied
   * here), summed in ascending attribute order; the class value, read at the
   * input header's class index, goes last. Weight and storage kind are kept.
   * Reading a value outside the row fails.
   */
  function Convert(f: Fit, cos: real -> real, classIndex: int, inst: Instance): (r: Result<Instance>)
    requires FitValid(f)
    ensures r.Ok? <==>
      (f.numComponents == 0 || f.numAttribs <= |inst.values|)
      && (f.hasClass ==> 0 <= classIndex < |inst.values|)
    ensures r.Ok? ==> |r.value.values| == FitWidth(f) == |f.output.attributes|
    ensures r.Ok? && f.hasClass ==> r.value.values[f.numComponents] == inst.values[classIndex]
    ensures r.Ok? ==> r.value.weight == inst.weight && r.value.sparse == inst.sparse
  {
    if f.numComponents > 0 && f.numAttribs > |inst.values| then
      Err(IndexOutOfBounds(|inst.values|))
    else
      var features := seq(f.numComponents, j requires 0 <= j < f.numComponents =>
        cos(Accumulate(f.params.biases[j], f.params.weights[j], inst.values, f.numAttribs)));
      if f.hasClass then
        match Value(inst, classIndex)
        case Err(e) => Err(e)
        case Ok(c) => Ok(Instance(features + [c], inst.weight, inst.sparse))
      else
        Ok(Instance(features, inst.weight, inst.sparse))
  }

  /**
   * Each generated slot is the cosine of bias j plus the dot product of
   * weight row j with the row's first numAttribs values, and so lies in
   * [-1, 1] when the cosine does.
   */
  lemma ConvertedFeature(f: Fit, cos: real -> real, classIndex: int, inst: Instance, j: nat)
    requires FitValid(f) && Convert(f, cos, classIndex, inst).Ok? && j < f.numComponents
    ensures f.numAttribs <= |inst.values|
    ensures Convert(f, cos, classIndex, inst).value.values[j]
      == cos(f.params.biases[j] + Dot(f.params.weights[j], inst.values[..f.numAttribs]))
    ensures CosineRange(cos) ==> -1.0 <= Convert(f, cos, classIndex, inst).value.values[j] <= 1.0
  {
    AccumulateIsDot(f.params.biases[j], f.params.weights[j], inst.values, f.numAttribs);
    assert f.params.weights[j][..f.numAttribs] == f.params.weights[j];
  }

  /**
   * With a cosine in [-1, 1], every generated slot of rows converted from
   * `rows`, position by position, lies in [-1, 1].
   */
  lemma ConvertedRowsInRange(f: Fit, cos: real -> real, classIndex: int, rows: seq<Instance>, out: seq<Instance>)
    requires FitValid(f) && CosineRange(cos) && |out| == |rows|
    requires forall k :: 0 <= k < |rows| ==> Convert(f, cos, classIndex, rows[k]) == Ok(out[k])
    ensures forall k :: 0 <= k < |out| ==>
      |out[k].values| == FitWidth(f) && forall j :: 0 <= j < f.numComponents ==> -1.0 <= out[k].values[j] <= 1.0
  {
    forall k | 0 <= k < |out|
      ensures |out[k].values| == FitWidth(f)
      ensures forall j :: 0 <= j < f.numComponents ==> -1.0 <= out[k].values[j] <= 1.0
    {
      forall j | 0 <= j < f.numComponents
        ensures -1.0 <= out[k].values[j] <= 1.0
      {
        ConvertedFeature(f, cos, classIndex, rows[k], j);
      }
    }
  }

  /**
   * The conversion reads nothing of a row but its first numAttribs values,
   * its class value, its weight and its storage kind.
   */
  lemma ConvertReadsOnlyUsedValues(f: Fit, cos: real -> real, classIndex: int, a: Instance, b: Instance)
    requires FitValid(f)
    requires f.numAttribs <= |a.values| && f.numAttribs <= |b.values|
    requires a.values[..f.numAttribs] == b.values[..f.numAttribs]
    requires f.hasClass ==> 0 <= classIndex < |a.values| && 0 <= classIndex < |b.values|
    requires f.hasClass ==> a.values[classIndex] == b.values[classIndex]
    requires a.weight == b.weight && a.sparse == b.sparse
    ensures Convert(f, cos, classIndex, a) == Convert(f, cos, classIndex, b)
  {
    var ra := Convert(f, cos, classIndex, a).value;
    var rb := Convert(f, cos, classIndex, b).value;
    forall j | 0 <= j < f.numComponents
      ensures ra.values[j] == rb.values[j]
    {
      ConvertedFeature(f, cos, classIndex, a, j);
      ConvertedFeature(f, cos, classIndex, b, j);
    }
    assert ra.values == rb.values;
  }

  /** Every row of a batch converts without an exception. */
  predicate AllConvert(f: Fit, cos: real -> real, classIndex: int, rows: seq<Instance>)
    requires FitValid(f)
  {
    forall k :: 0 <= k < |rows| ==> Convert(f, cos, classIndex, rows[k]).Ok?
  }

  /** A batch converts without an exception iff its first row and the rest do. */
  lemma AllConvertTail(f: Fit, cos: real -> real, classIndex: int, rows: seq<Instance>)
    requires FitValid(f) && |rows| > 0
    ensures AllConvert(f, cos, classIndex, rows) <==>
      Convert(f, cos, classIndex, rows[0]).Ok? && AllConvert(f, cos, classIndex, rows[1..])
  {
    if Convert(f, cos, classIndex, rows[0]).Ok? && AllConvert(f, cos, classIndex, rows[1..]) {
      forall k | 0 <= k < |rows| ensures Convert(f, cos, classIndex, rows[k]).Ok? {
        if k > 0 {
          assert rows[k] == rows[1..][k - 1];
        }
      }
    }
  }

  /** The rows a loop over a batch pushed, and the exception that stopped it, if any. */
  datatype Pushed = Pushed(out: seq<Instance>, failure: Option<Error>)

  /**
   * Converts rows in order, stopping at the first row that fails; the rows
   * converted before it stay pushed.
   */
  function ConvertAll(f: Fit, cos: real -> real, classIndex: int, rows: seq<Instance>): (r: Pushed)
    requires FitValid(f)
    ensures |r.out| <= |rows|
    ensures forall k :: 0 <= k < |r.out| ==> Convert(f, cos, classIndex, rows[k]) == Ok(r.out[k])
    ensures r.failure.None? <==> |r.out| == |rows|
    ensures r.failure.None? <==> AllConvert(f, cos, classIndex, rows)
    ensures r.failure.Some? ==> Convert(f, cos, classIndex, rows[|r.out|]) == Err(r.failure.value)
    decreases |rows|
  {
    if |rows| == 0 then Pushed([], None)
    else
      match Convert(f, cos, classIndex, rows[0])
      case Err(e) => Pushed([], Some(e))
      case Ok(v) =>
        var rest := ConvertAll(f, cos, classIndex, rows[1..]);
        Pushed([v] + rest.out, rest.failure)
  }
}
