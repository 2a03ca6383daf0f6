/** The output header: one generated numeric attribute per component, then the class. */
module Schema {
  import opened Data

  predicate IsDigit(c: char) { '0' <= c <= '9' }

  predicate AllDigits(s: string) {
    forall k :: 0 <= k < |s| ==> IsDigit(s[k])
  }

  function DigitChar(d: nat): (c: char)
    requires d < 10
    ensures IsDigit(c)
  {
    (48 + d) as char
  }

  /** The decimal text of n, as string concatenation writes a non-negative int. */
  function Decimal(n: nat): (s: string)
    ensures |s| >= 1 && AllDigits(s)
    decreases n
  {
    if n < 10 then [DigitChar(n)] else Decimal(n / 10) + [DigitChar(n % 10)]
  }

  /** Reads a string of decimal digits back as a number. */
  function ParseDecimal(s: string): nat
    requires AllDigits(s)
    decreases |s|
  {
    if |s| == 0 then 0 else ParseDecimal(s[..|s| - 1]) * 10 + (s[|s| - 1] as int - 48)
  }

  lemma {:induction false} DecimalRoundTrip(n: nat)
    ensures ParseDecimal(Decimal(n)) == n
    decreases n
  {
    if n >= 10 {
      var s := Decimal(n);
      assert s[..|s| - 1] == Decimal(n / 10);
      DecimalRoundTrip(n / 10);
    }
  }

  const FeaturePrefix: string := "random feature "

  /** The name of the i-th generated attribute. */
  function FeatureName(i: nat): string {
    FeaturePrefix + Decimal(i)
  }

  /** The component a generated attribute's name stands for, if it is such a name. */
  function FeatureIndex(name: string): Option<nat> {
    if |name| > |FeaturePrefix| && name[..|FeaturePrefix|] == FeaturePrefix
       && AllDigits(name[|FeaturePrefix|..])
    then Some(ParseDecimal(name[|FeaturePrefix|..]))
    else None
  }

  /** Every generated name reads back as the index of its component. */
  lemma FeatureNameRoundTrip(i: nat)
    ensures FeatureIndex(FeatureName(i)) == Some(i)
  {
    var name := FeatureName(i);
    assert name[..|FeaturePrefix|] == FeaturePrefix;
    assert name[|FeaturePrefix|..] == Decimal(i);
    DecimalRoundTrip(i);
  }

  /** Two components never share a name. */
  lemma FeatureNamesDistinct(i: nat, j: nat)
    requires i != j
    ensures FeatureName(i) != FeatureName(j)
  {
    FeatureNameRoundTrip(i);
    FeatureNameRoundTrip(j);
  }

  /** The generated attributes, "random feature 0" to "random feature n-1", in order. */
  function Features(n: nat): (attrs: seq<Attribute>)
    ensures |attrs| == n
  {
    seq(n, i requires 0 <= i => Attribute(FeatureName(i), Numeric))
  }

  /** Components plus one for the class when there is one. */
  function Width(numComponents: nat, hasClass: bool): nat {
    numComponents + (if hasClass then 1 else 0)
  }

  /**
   * The output header: the generated attributes, then a copy of the input's
   * class attribute when the filter has a class, which becomes the output's
   * class at the last position.
   */
  function OutputFormat(numComponents: nat, hasClass: bool, input: Format): (r: Result<Format>)
    ensures r.Err? <==> hasClass && !(0 <= input.classIndex < |input.attributes|)
    ensures hasClass && input.classIndex < 0 ==> r == Err(UnassignedClass)
    ensures r.Ok? ==> |r.value.attributes| == Width(numComponents, hasClass)
    ensures r.Ok? ==> forall i :: 0 <= i < numComponents ==>
      r.value.attributes[i] == Attribute(FeatureName(i), Numeric)
    ensures r.Ok? && hasClass ==>
      && r.value.attributes[numComponents] == input.attributes[input.classIndex]
      && r.value.classIndex == |r.value.attributes| - 1
    ensures r.Ok? && !hasClass ==> !r.value.HasClass()
  {
    if !hasClass then
      Ok(Format(Features(numComponents), -1))
    else
      match input.ClassAttribute()
      case Err(e) => Err(e)
      case Ok(c) =>
        var attrs := Features(numComponents) + [c];
        Ok(Format(attrs, |attrs| - 1))
  }

  /**
   * Each generated attribute of an output header names its own component,
   * so the generated names are pairwise distinct.
   */
  lemma OutputNames(numComponents: nat, hasClass: bool, input: Format)
    requires OutputFormat(numComponents, hasClass, input).Ok?
    ensures forall i :: 0 <= i < numComponents ==>
      FeatureIndex(OutputFormat(numComponents, hasClass, input).value.attributes[i].name) == Some(i)
    ensures forall i, j :: 0 <= i < j < numComponents ==>
      OutputFormat(numComponents, hasClass, input).value.attributes[i].name
      != OutputFormat(numComponents, hasClass, input).value.attributes[j].name
  {
    var attrs := OutputFormat(numComponents, hasClass, input).value.attributes;
    forall i | 0 <= i < numComponents
      ensures FeatureIndex(attrs[i].name) == Some(i)
    {
      FeatureNameRoundTrip(i);
    }
    forall i, j | 0 <= i < j < numComponents
      ensures attrs[i].name != attrs[j].name
    {
      FeatureNamesDistinct(i, j);
    }
  }
}
