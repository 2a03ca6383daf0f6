/**
 * Fitting the filter on the first batch: which encoded columns are removed,
 * how many numeric attributes remain, the random parameters and the output
 * header.
 */
module Setup {
  import opened Data
  import opened Projection
  import Schema

  /** The filter's settings: the number of components (default 10) and the seed (fixed at 1). */
  datatype Config = Config(numComponents: int, seed: int)

  function DefaultConfig(): Config {
    Config(10, 1)
  }

  /**
   * What the training data looks like once missing values are replaced and
   * nominal attributes are made binary: the number of distinct values of each
   * encoded attribute and the encoded class index (negative when none).
   */
  datatype Encoded = Encoded(distinctCounts: seq<nat>, classIndex: int)

  /**
   * The code the filter calls but does not define: the seeded random stream
   * of each seed, the cosine, and the preprocessing stages applied to a
   * header and its rows.
   */
  datatype Env = Env(
    random: int -> Draws,
    cos: real -> real,
    encode: (Format, seq<Instance>) -> Encoded)

  /**
   * The encoded columns from i on with at most one distinct value, in
   * ascending order, as the scan in setup lists them.
   */
  function DegenerateFrom(counts: seq<nat>, i: nat): (cols: seq<int>)
    requires i <= |counts|
    ensures forall k :: 0 <= k < |cols| ==> i <= cols[k] < |counts| && counts[cols[k]] <= 1
    ensures forall c :: i <= c < |counts| && counts[c] <= 1 ==> c in cols
    ensures forall k, l :: 0 <= k < l < |cols| ==> cols[k] < cols[l]
    decreases |counts| - i
  {
    if i == |counts| then []
    else if counts[i] <= 1 then [i] + DegenerateFrom(counts, i + 1)
    else DegenerateFrom(counts, i + 1)
  }

  /**
   * The columns setup asks the removal stage to delete: the degenerate ones
   * in ascending order, then the class column when there is one (which may
   * therefore be listed twice).
   */
  function DeletionList(e: Encoded): (del: seq<int>)
    ensures e.classIndex < 0 ==> |del| == |DegenerateFrom(e.distinctCounts, 0)|
    ensures e.classIndex >= 0 ==>
      |del| == |DegenerateFrom(e.distinctCounts, 0)| + 1 && del[|del| - 1] == e.classIndex
    ensures forall k, l :: 0 <= k < l < |DegenerateFrom(e.distinctCounts, 0)| ==> del[k] < del[l]
    ensures forall c :: c in del <==>
      (0 <= c < |e.distinctCounts| && e.distinctCounts[c] <= 1) || (e.classIndex >= 0 && c == e.classIndex)
  {
    var deg := DegenerateFrom(e.distinctCounts, 0);
    var classCol := if e.classIndex >= 0 then [e.classIndex] else [];
    DegenerateMembers(e.distinctCounts);
    assert forall k :: 0 <= k < |deg| ==> (deg + classCol)[k] == deg[k];
    assert forall c :: c in deg + classCol <==> c in deg || c in classCol;
    deg + classCol
  }

  /** A column is listed by the scan from 0 exactly when it is in range and degenerate. */
  lemma DegenerateMembers(counts: seq<nat>)
    ensures forall c :: c in DegenerateFrom(counts, 0) <==> 0 <= c < |counts| && counts[c] <= 1
  {
  }

  /**
   * The columns from i on that survive deleting `del`, in ascending order:
   * each listed index is dropped once however often it is listed.
   */
  function Surviving(n: nat, del: seq<int>, i: nat): (kept: seq<int>)
    requires i <= n
    ensures forall k :: 0 <= k < |kept| ==> i <= kept[k] < n && kept[k] !in del
    ensures forall c :: i <= c < n && c !in del ==> c in kept
    ensures forall k, l :: 0 <= k < l < |kept| ==> kept[k] < kept[l]
    decreases n - i
  {
    if i == n then []
    else if i in del then Surviving(n, del, i + 1)
    else [i] + Surviving(n, del, i + 1)
  }

  /** With nothing to delete every column survives. */
  lemma {:induction false} SurvivingNone(n: nat, i: nat)
    requires i <= n
    ensures |Surviving(n, [], i)| == n - i
    decreases n - i
  {
    if i < n {
      SurvivingNone(n, i + 1);
    }
  }

  /**
   * The number of numeric attributes the projection sees: the removal stage
   * runs only when the deletion list is non-empty.
   */
  function NumAttribs(e: Encoded): nat {
    var del := DeletionList(e);
    if |del| > 0 then |Surviving(|e.distinctCounts|, del, 0)| else |e.distinctCounts|
  }

  /**
   * The projection's inputs are exactly the encoded columns with more than
   * one distinct value, other than the class; skipping the removal for an
   * empty list agrees with removing nothing.
   */
  lemma NumAttribsCountsInformative(e: Encoded)
    ensures NumAttribs(e) == |Surviving(|e.distinctCounts|, DeletionList(e), 0)|
    ensures forall c :: c in Surviving(|e.distinctCounts|, DeletionList(e), 0) <==>
      0 <= c < |e.distinctCounts| && e.distinctCounts[c] > 1 && c != e.classIndex
  {
    var del := DeletionList(e);
    if |del| == 0 {
      SurvivingNone(|e.distinctCounts|, 0);
    }
  }

  /** The state a successful setup leaves: the fitted parameters and output header. */
  datatype Fit = Fit(
    params: Params,
    numComponents: nat,
    numAttribs: nat,
    hasClass: bool,
    output: Format)

  /** A fit whose arrays have the sizes the source allocates and whose header matches them. */
  predicate FitValid(f: Fit) {
    && Shaped(f.params, f.numComponents, f.numAttribs)
    && |f.output.attributes| == Schema.Width(f.numComponents, f.hasClass)
    && (f.hasClass ==> f.output.classIndex == |f.output.attributes| - 1)
    && (!f.hasClass ==> !f.output.HasClass())
  }

  /** The class flag after setup ran, and the fit or the exception setup threw. */
  datatype Fitted = Fitted(hasClass: bool, fit: Result<Fit>)

  /**
   * setup on the buffered rows: encode them, list the columns to delete, set
   * the class flag (only ever to true), draw the parameters from the seeded
   * stream and build the output header.
   */
  function RunSetup(cfg: Config, env: Env, hadClass: bool, format: Format, rows: seq<Instance>): (r: Fitted)
    ensures r.hasClass == (hadClass || env.encode(format, rows).classIndex >= 0)
    ensures r.fit.Err? <==>
      cfg.numComponents < 0 || (r.hasClass && !(0 <= format.classIndex < |format.attributes|))
    ensures cfg.numComponents < 0 ==> r.fit == Err(NegativeArraySize(cfg.numComponents))
    ensures cfg.numComponents >= 0 && r.hasClass && format.classIndex < 0 ==> r.fit == Err(UnassignedClass)
    ensures r.fit.Ok? ==>
      && FitValid(r.fit.value)
      && r.fit.value.hasClass == r.hasClass
      && r.fit.value.numComponents == cfg.numComponents
      && r.fit.value.numAttribs == NumAttribs(env.encode(format, rows))
      && r.fit.value.params == Generate(env.random(cfg.seed), cfg.numComponents, NumAttribs(env.encode(format, rows)))
      && Schema.OutputFormat(cfg.numComponents, r.hasClass, format) == Ok(r.fit.value.output)
  {
    var e := env.encode(format, rows);
    var hasClass := hadClass || e.classIndex >= 0;
    var numAttribs := NumAttribs(e);
    if cfg.numComponents < 0 then
      Fitted(hasClass, Err(NegativeArraySize(cfg.numComponents)))
    else
      var params := Generate(env.random(cfg.seed), cfg.numComponents, numAttribs);
      match Schema.OutputFormat(cfg.numComponents, hasClass, format)
      case Err(err) => Fitted(hasClass, Err(err))
      case Ok(output) => Fitted(hasClass, Ok(Fit(params, cfg.numComponents, numAttribs, hasClass, output)))
  }

  /** With the seed's draws in [0, 1), a successful setup fits weights and biases in [-1, 1). */
  lemma SetupInRange(cfg: Config, env: Env, hadClass: bool, format: Format, rows: seq<Instance>)
    requires UnitDraws(env.random(cfg.seed))
    ensures var fit := RunSetup(cfg, env, hadClass, format, rows).fit;
      fit.Ok? ==>
        && (forall i, j :: 0 <= i < fit.value.numComponents && 0 <= j < fit.value.numAttribs ==>
              -1.0 <= fit.value.params.weights[i][j] < 1.0)
        && (forall i :: 0 <= i < fit.value.numComponents ==> -1.0 <= fit.value.params.biases[i] < 1.0)
  {
    var fit := RunSetup(cfg, env, hadClass, format, rows).fit;
    if fit.Ok? {
      GenerateInRange(env.random(cfg.seed), fit.value.numComponents, fit.value.numAttribs);
    }
  }
}
