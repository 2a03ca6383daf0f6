/** Values the filter works on: dataset headers, rows, and the failures it throws. */
module Data {

  datatype Option<+T> = None | Some(value: T)

  /** The exceptions the filter's operations can raise. */
  datatype Error =
    | NoInputFormat                  // input() before setInputFormat(): IllegalStateException
    | NullInputFormat                // batchFinished() before setInputFormat(): NullPointerException
    | IndexOutOfBounds(index: int)   // a value or attribute read outside the row or header
    | UnassignedClass                // classAttribute() asked of a header without a class
    | NegativeArraySize(size: int)   // new double[n] with n < 0

  datatype Result<+T> = Ok(value: T) | Err(error: Error)

  datatype AttributeKind = Numeric | Date | Nominal(labels: seq<string>)

  datatype Attribute = Attribute(name: string, kind: AttributeKind)

  /** A dataset header: its attributes and the class index, negative when there is no class. */
  datatype Format = Format(attributes: seq<Attribute>, classIndex: int)
  {
    predicate HasClass() { classIndex >= 0 }

    /** classAttribute(): fails when no class is set or the index lies outside the header. */
    function ClassAttribute(): (r: Result<Attribute>)
      ensures r.Ok? <==> 0 <= classIndex < |attributes|
      ensures r.Ok? ==> r.value == attributes[classIndex]
      ensures classIndex < 0 ==> r == Err(UnassignedClass)
    {
      if classIndex < 0 then Err(UnassignedClass)
      else if classIndex >= |attributes| then Err(IndexOutOfBounds(classIndex))
      else Ok(attributes[classIndex])
    }
  }

  /**
   * A row: one value per attribute, the row weight, and whether it is stored
   * sparsely. The values are given in full whichever way the row is stored.
   */
  datatype Instance = Instance(values: seq<real>, weight: real, sparse: bool)

  /** instance.value(i) on a row: fails outside the row. */
  function Value(inst: Instance, i: int): (r: Result<real>)
    ensures r.Ok? <==> 0 <= i < |inst.values|
    ensures r.Ok? ==> r.value == inst.values[i]
  {
    if 0 <= i < |inst.values| then Ok(inst.values[i]) else Err(IndexOutOfBounds(i))
  }
}
