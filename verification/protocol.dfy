/**
 * The filter's two-phase batch protocol: rows are buffered until the first
 * batch finishes, the filter is fitted once on them, and from then on every
 * row is converted as soon as it arrives.
 */
module Protocol {
  import opened Data
  import opened Projection
  import opened Setup
  import opened Conversion

  /**
   * The filter object's state: its settings, the input header once one is
   * set, the rows buffered in it, the output queue, the two batch flags, the
   * class flag, and the fit once setup has succeeded.
   */
  datatype State = State(
    config: Config,
    inputFormat: Option<Format>,
    buffer: seq<Instance>,
    queue: seq<Instance>,
    newBatch: bool,
    firstBatchDone: bool,
    hasClass: bool,
    fit: Option<Fit>)

  /** What a call did: returned a flag, or threw. */
  datatype Outcome = Returned(ready: bool) | Threw(error: Error)

  /** The state after a call together with the call's outcome. */
  datatype Step = Step(state: State, outcome: Outcome)

  /** m_OutputNumAtts: -1 until setup has fixed the output header. */
  function OutputNumAtts(s: State): int {
    match s.fit
    case None => -1
    case Some(f) => |f.output.attributes|
  }

  /** What every reachable state satisfies. */
  predicate Valid(s: State) {
    && (s.inputFormat.None? ==> s.buffer == [] && !s.firstBatchDone)
    && (s.firstBatchDone ==> s.buffer == [])
    && (s.firstBatchDone ==> s.fit.Some? && s.fit.value.hasClass == s.hasClass
                             && s.fit.value.numComponents == s.config.numComponents)
    && (s.fit.Some? ==> FitValid(s.fit.value))
    && (s.fit.None? ==> s.queue == [])
    && (forall k :: 0 <= k < |s.queue| ==> |s.queue[k].values| == OutputNumAtts(s))
  }

  /** A new filter: no input header, nothing buffered or queued, no fit. */
  function Init(cfg: Config): (s: State)
    ensures Valid(s)
    ensures s.config == cfg && s.inputFormat.None?
    ensures s.buffer == [] && s.queue == [] && s.newBatch && !s.firstBatchDone
    ensures OutputNumAtts(s) == -1 && !s.hasClass
  {
    State(cfg, None, [], [], true, false, false, None)
  }

  /**
   * setInputFormat: the new header is stored with no rows, the queue is
   * emptied, a new first batch begins and the output header is forgotten;
   * the class flag keeps its value. The output format is never available
   * immediately.
   */
  function SetInputFormat(s: State, format: Format): (r: (State, bool))
    requires Valid(s)
    ensures Valid(r.0)
    ensures !r.1
    ensures r.0.inputFormat == Some(format) && r.0.buffer == [] && r.0.queue == []
    ensures r.0.newBatch && !r.0.firstBatchDone && OutputNumAtts(r.0) == -1
    ensures r.0.hasClass == s.hasClass && r.0.config == s.config
  {
    (s.(inputFormat := Some(format), buffer := [], queue := [],
        newBatch := true, firstBatchDone := false, fit := None), false)
  }

  /** The queue a call starts from: emptied when the call opens a new batch. */
  function OpenBatch(s: State): (t: State)
    requires Valid(s)
    ensures Valid(t)
  {
    if s.newBatch then s.(queue := [], newBatch := false) else s
  }

  /**
   * input: fails without an input header. The first row of a new batch
   * empties the output queue. Before the first batch is done the row is
   * buffered and nothing is queued; afterwards the row is converted and
   * queued at once.
   */
  function Input(s: State, env: Env, inst: Instance): (r: Step)
    requires Valid(s)
    ensures Valid(r.state)
    ensures s.inputFormat.None? ==> r == Step(s, Threw(NoInputFormat))
    ensures r.state.config == s.config && r.state.inputFormat == s.inputFormat
    ensures r.state.fit == s.fit && r.state.hasClass == s.hasClass
    ensures r.state.firstBatchDone == s.firstBatchDone
    ensures s.inputFormat.Some? ==> !r.state.newBatch
    ensures s.inputFormat.Some? && !s.firstBatchDone ==>
      && r.outcome == Returned(false)
      && r.state.buffer == s.buffer + [inst]
      && r.state.queue == OpenBatch(s).queue
    ensures s.inputFormat.Some? && s.firstBatchDone ==>
      && r.state.buffer == s.buffer
      && match Convert(s.fit.value, env.cos, s.inputFormat.value.classIndex, inst)
         case Ok(v) =>
           r.outcome == Returned(true) && r.state.queue == OpenBatch(s).queue + [v]
         case Err(e) =>
           r.outcome == Threw(e) && r.state.queue == OpenBatch(s).queue
  {
    if s.inputFormat.None? then Step(s, Threw(NoInputFormat))
    else
      var t := OpenBatch(s);
      if t.firstBatchDone then
        match Convert(t.fit.value, env.cos, t.inputFormat.value.classIndex, inst)
        case Err(e) => Step(t, Threw(e))
        case Ok(v) => Step(t.(queue := t.queue + [v]), Returned(true))
      else
        Step(t.(buffer := t.buffer + [inst]), Returned(false))
  }

  /** setup as batchFinished runs it: on the settings, class flag, header and buffered rows. */
  function SetupOn(s: State, env: Env): Fitted
    requires s.inputFormat.Some?
  {
    RunSetup(s.config, env, s.hasClass, s.inputFormat.value, s.buffer)
  }

  /**
   * When batchFinished returns on a state with an input header: the first
   * batch is already done (nothing is buffered any more), or setup succeeds
   * on the buffered rows and its fit converts every one of them.
   */
  predicate BatchSucceeds(s: State, env: Env)
    requires Valid(s) && s.inputFormat.Some?
  {
    || s.firstBatchDone
    || (SetupOn(s, env).fit.Ok? && AllConvert(SetupOn(s, env).fit.value, env.cos, s.inputFormat.value.classIndex, s.buffer))
  }

  /** The state in which a batch's buffered rows are converted: fitted first if need be. */
  datatype Prepared = Ready(state: State) | SetupFailed(state: State, error: Error)

  function Prepare(s: State, env: Env): (r: Prepared)
    requires Valid(s) && s.inputFormat.Some?
    ensures Valid(r.state)
    ensures r.state.config == s.config && r.state.inputFormat == s.inputFormat
    ensures r.state.buffer == s.buffer && r.state.newBatch == s.newBatch
    ensures r.state.firstBatchDone == s.firstBatchDone
    ensures s.firstBatchDone ==> r == Ready(s)
    ensures r.Ready? ==> r.state.fit.Some? && r.state.fit.value.hasClass == r.state.hasClass
                         && r.state.fit.value.numComponents == s.config.numComponents
    ensures !s.firstBatchDone ==> (r.Ready? <==> SetupOn(s, env).fit.Ok?)
    ensures !s.firstBatchDone ==> r.state.hasClass == SetupOn(s, env).hasClass
    ensures r.SetupFailed? ==>
      r.state.queue == s.queue && r.state.fit == s.fit && SetupOn(s, env).fit == Err(r.error)
    ensures BatchSucceeds(s, env) <==>
      r.Ready? && AllConvert(r.state.fit.value, env.cos, s.inputFormat.value.classIndex, s.buffer)
    ensures !s.firstBatchDone && r.Ready? ==>
      r.state.queue == [] && SetupOn(s, env).fit == Ok(r.state.fit.value)
  {
    if s.firstBatchDone then Ready(s)
    else
      var fitted := SetupOn(s, env);
      match fitted.fit
      case Err(e) => SetupFailed(s.(hasClass := fitted.hasClass), e)
      case Ok(f) => Ready(s.(hasClass := fitted.hasClass, fit := Some(f), queue := []))
  }

  /**
   * The loop of batchFinished on a fitted state: converts and queues the
   * buffered rows in order; if all succeed, empties the buffer, sets both
   * batch flags and reports whether output is pending. A failing row stops
   * the loop with the rows before it queued and the flags untouched.
   */
  function Drain(t: State, env: Env): (r: Step)
    requires Valid(t) && t.inputFormat.Some? && t.fit.Some?
    requires t.fit.value.hasClass == t.hasClass && t.fit.value.numComponents == t.config.numComponents
    ensures Valid(r.state)
    ensures r.state.config == t.config && r.state.inputFormat == t.inputFormat
    ensures r.state.fit == t.fit && r.state.hasClass == t.hasClass
    ensures r.outcome.Returned? <==> AllConvert(t.fit.value, env.cos, t.inputFormat.value.classIndex, t.buffer)
    ensures r.state.queue == t.queue + ConvertAll(t.fit.value, env.cos, t.inputFormat.value.classIndex, t.buffer).out
    ensures r.outcome.Threw? ==>
      Some(r.outcome.error) == ConvertAll(t.fit.value, env.cos, t.inputFormat.value.classIndex, t.buffer).failure
    ensures r.outcome.Threw? ==>
      r.state.buffer == t.buffer && r.state.firstBatchDone == t.firstBatchDone
      && r.state.newBatch == t.newBatch
    ensures r.outcome.Returned? ==>
      && r.state.buffer == [] && r.state.firstBatchDone && r.state.newBatch
      && r.outcome.ready == (|r.state.queue| != 0)
      && |r.state.queue| == |t.queue| + |t.buffer|
      && r.state.queue[..|t.queue|] == t.queue
      && forall k :: 0 <= k < |t.buffer| ==>
           Convert(t.fit.value, env.cos, t.inputFormat.value.classIndex, t.buffer[k])
           == Ok(r.state.queue[|t.queue| + k])
  {
    var pushed := ConvertAll(t.fit.value, env.cos, t.inputFormat.value.classIndex, t.buffer);
    var u := t.(queue := t.queue + pushed.out);
    PushKeepsValid(t, pushed.out);
    match pushed.failure
    case Some(e) => Step(u, Threw(e))
    case None =>
      var w := u.(buffer := [], newBatch := true, firstBatchDone := true);
      Step(w, Returned(|w.queue| != 0))
  }

  /** Rows of the output width appended to the queue of a fitted state keep it valid. */
  lemma PushKeepsValid(t: State, out: seq<Instance>)
    requires Valid(t) && t.fit.Some?
    requires forall k :: 0 <= k < |out| ==> |out[k].values| == |t.fit.value.output.attributes|
    ensures Valid(t.(queue := t.queue + out))
  {
  }

  /**
   * batchFinished on the first batch: setup runs on the buffered rows, its
   * new output header empties the queue, and the buffered rows are drained.
   */
  function FinishFirst(s: State, env: Env): (r: Step)
    requires Valid(s) && s.inputFormat.Some? && !s.firstBatchDone
    ensures Valid(r.state)
    ensures r.state.config == s.config && r.state.inputFormat == s.inputFormat
    ensures r.outcome.Returned? <==> BatchSucceeds(s, env)
    ensures r.outcome.Threw? ==> r.state.buffer == s.buffer && !r.state.firstBatchDone && r.state.newBatch == s.newBatch
    ensures r.state.hasClass == SetupOn(s, env).hasClass
    ensures SetupOn(s, env).fit.Err? ==>
      r.outcome == Threw(SetupOn(s, env).fit.error) && r.state.queue == s.queue && r.state.fit == s.fit
    ensures SetupOn(s, env).fit.Ok? ==> r.state.fit == Some(SetupOn(s, env).fit.value)
    ensures r.outcome.Threw? && SetupOn(s, env).fit.Ok? ==>
      && r.state.queue == ConvertAll(SetupOn(s, env).fit.value, env.cos, s.inputFormat.value.classIndex, s.buffer).out
      && Some(r.outcome.error) == ConvertAll(SetupOn(s, env).fit.value, env.cos, s.inputFormat.value.classIndex, s.buffer).failure
    ensures r.outcome.Returned? ==>
      && r.state.buffer == [] && r.state.firstBatchDone && r.state.newBatch
      && r.outcome.ready == (|r.state.queue| != 0)
      && SetupOn(s, env).fit == Ok(r.state.fit.value)
    ensures r.outcome.Returned? ==>
      && |r.state.queue| == |s.buffer|
      && forall k :: 0 <= k < |s.buffer| ==>
           Convert(r.state.fit.value, env.cos, s.inputFormat.value.classIndex, s.buffer[k])
           == Ok(r.state.queue[k])
  {
    match Prepare(s, env)
    case SetupFailed(t, e) => Step(t, Threw(e))
    case Ready(t) => Drain(t, env)
  }

  /**
   * batchFinished once an input header is set. Before the first batch is
   * done, setup runs on the buffered rows and they are drained: the call
   * returns exactly when setup succeeds and its fit converts every buffered
   * row, and then every buffered row is queued, converted, exactly once and
   * in order. A failing setup throws its exception with the fit and queue as
   * they were; a failing row throws its conversion exception with the rows
   * before it queued and the new fit kept. Once the first batch is done
   * nothing is buffered, so the call only closes the batch.
   */
  function FinishFormatted(s: State, env: Env): (r: Step)
    requires Valid(s) && s.inputFormat.Some?
    ensures Valid(r.state)
    ensures r.state.config == s.config && r.state.inputFormat == s.inputFormat
    ensures s.firstBatchDone ==> r == Step(s.(newBatch := true), Returned(|s.queue| != 0))
    ensures r.outcome.Returned? <==> BatchSucceeds(s, env)
    ensures r.outcome.Threw? ==>
      r.state.buffer == s.buffer && r.state.firstBatchDone == s.firstBatchDone
      && r.state.newBatch == s.newBatch
    ensures !s.firstBatchDone ==> r.state.hasClass == SetupOn(s, env).hasClass
    ensures !s.firstBatchDone && SetupOn(s, env).fit.Err? ==>
      r.outcome == Threw(SetupOn(s, env).fit.error) && r.state.queue == s.queue && r.state.fit == s.fit
    ensures !s.firstBatchDone && SetupOn(s, env).fit.Ok? ==> r.state.fit == Some(SetupOn(s, env).fit.value)
    ensures r.outcome.Threw? && !s.firstBatchDone && SetupOn(s, env).fit.Ok? ==>
      && r.state.queue == ConvertAll(SetupOn(s, env).fit.value, env.cos, s.inputFormat.value.classIndex, s.buffer).out
      && Some(r.outcome.error) == ConvertAll(SetupOn(s, env).fit.value, env.cos, s.inputFormat.value.classIndex, s.buffer).failure
    ensures r.outcome.Returned? ==>
      && r.state.buffer == [] && r.state.firstBatchDone && r.state.newBatch
      && r.outcome.ready == (|r.state.queue| != 0)
    ensures r.outcome.Returned? && !s.firstBatchDone ==>
      && SetupOn(s, env).fit == Ok(r.state.fit.value)
      && |r.state.queue| == |s.buffer|
      && forall k :: 0 <= k < |s.buffer| ==>
           Convert(r.state.fit.value, env.cos, s.inputFormat.value.classIndex, s.buffer[k])
           == Ok(r.state.queue[k])
  {
    if s.firstBatchDone then Drain(s, env) else FinishFirst(s, env)
  }

  /** batchFinished: fails without an input header, and otherwise finishes the batch. */
  function BatchFinished(s: State, env: Env): (r: Step)
    requires Valid(s)
    ensures Valid(r.state)
    ensures s.inputFormat.None? ==> r == Step(s, Threw(NullInputFormat))
    ensures s.inputFormat.Some? ==> r == FinishFormatted(s, env)
    ensures r.outcome.Returned? <==> s.inputFormat.Some? && BatchSucceeds(s, env)
  {
    if s.inputFormat.None? then Step(s, Threw(NullInputFormat)) else FinishFormatted(s, env)
  }

  /** A call on the filter. */
  datatype Op = SetFormat(format: Format) | Feed(inst: Instance) | Finish

  function Apply(s: State, env: Env, op: Op): (r: Step)
    requires Valid(s)
    ensures Valid(r.state)
  {
    match op
    case SetFormat(format) =>
      var (t, ready) := SetInputFormat(s, format);
      Step(t, Returned(ready))
    case Feed(inst) => Input(s, env, inst)
    case Finish => BatchFinished(s, env)
  }

  /** The final state and the outcome of each call of a sequence of calls. */
  datatype Trace = Trace(state: State, outcomes: seq<Outcome>)

  function Run(s: State, env: Env, ops: seq<Op>): (r: Trace)
    requires Valid(s)
    ensures Valid(r.state) && |r.outcomes| == |ops|
    decreases |ops|
  {
    if |ops| == 0 then Trace(s, [])
    else
      var first := Apply(s, env, ops[0]);
      var rest := Run(first.state, env, ops[1..]);
      Trace(rest.state, [first.outcome] + rest.outcomes)
  }

  /** One input call per row, in order. */
  function Feeds(rows: seq<Instance>): (ops: seq<Op>)
    ensures |ops| == |rows|
    ensures forall k :: 0 <= k < |rows| ==> ops[k] == Feed(rows[k])
  {
    seq(|rows|, k requires 0 <= k < |rows| => Feed(rows[k]))
  }

  /**
   * Once the first batch is done, no sequence of input and batchFinished
   * calls, failing or not, changes the fit: the parameters are never drawn
   * again.
   */
  lemma {:induction false} FitNeverRegenerated(s: State, env: Env, ops: seq<Op>)
    requires Valid(s) && s.firstBatchDone
    requires forall k :: 0 <= k < |ops| ==> !ops[k].SetFormat?
    ensures Run(s, env, ops).state.fit == s.fit
    ensures Run(s, env, ops).state.firstBatchDone
    decreases |ops|
  {
    if |ops| > 0 {
      var first := Apply(s, env, ops[0]);
      FitNeverRegenerated(first.state, env, ops[1..]);
    }
  }

  /**
   * Once the first batch is done, no input or batchFinished call ever
   * throws from batchFinished: input converts rows at once instead of
   * buffering them, so every later batchFinished finds nothing to convert.
   */
  lemma {:induction false} LaterBatchesNeverFail(s: State, env: Env, ops: seq<Op>)
    requires Valid(s) && s.firstBatchDone
    requires forall k :: 0 <= k < |ops| ==> !ops[k].SetFormat?
    ensures forall k :: 0 <= k < |ops| && ops[k].Finish? ==> Run(s, env, ops).outcomes[k].Returned?
    ensures Run(s, env, ops).state.buffer == []
    decreases |ops|
  {
    if |ops| > 0 {
      var first := Apply(s, env, ops[0]);
      var rest := Run(first.state, env, ops[1..]);
      LaterBatchesNeverFail(first.state, env, ops[1..]);
      assert Run(s, env, ops).outcomes == [first.outcome] + rest.outcomes;
      forall k | 0 <= k < |ops| && ops[k].Finish? ensures Run(s, env, ops).outcomes[k].Returned? {
        if k > 0 {
          assert ops[k] == ops[1..][k - 1];
        }
      }
    }
  }

  /**
   * A batchFinished after the first batch converts nothing: it returns
   * whether output is pending, with the queue as it stands, and only marks
   * the next call as opening a new batch.
   */
  lemma LaterBatchConvertsNothing(s: State, env: Env)
    requires Valid(s) && s.firstBatchDone
    ensures BatchFinished(s, env) == Step(s.(newBatch := true), Returned(|s.queue| != 0))
  {
  }

  /** The class flag, once set, stays set through any calls, setInputFormat included. */
  lemma {:induction false} HasClassSticky(s: State, env: Env, ops: seq<Op>)
    requires Valid(s) && s.hasClass
    ensures Run(s, env, ops).state.hasClass
    decreases |ops|
  {
    if |ops| > 0 {
      var first := Apply(s, env, ops[0]);
      HasClassSticky(first.state, env, ops[1..]);
    }
  }

  /**
   * Before the first batch is done, input calls buffer their rows in order
   * and emit nothing: each returns false, the queue only empties, and
   * nothing else changes but the batch flag.
   */
  lemma {:induction false} BufferingEmitsNothing(s: State, env: Env, rows: seq<Instance>)
    requires Valid(s) && s.inputFormat.Some? && !s.firstBatchDone
    ensures Run(s, env, Feeds(rows)).state
      == s.(buffer := s.buffer + rows, queue := StreamBase(s, rows), newBatch := s.newBatch && |rows| == 0)
    ensures forall k :: 0 <= k < |rows| ==> Run(s, env, Feeds(rows)).outcomes[k] == Returned(false)
    decreases |rows|
  {
    if |rows| > 0 {
      var t := OpenBatch(s).(buffer := s.buffer + [rows[0]]);
      BufferOne(s, env, rows[0]);
      BufferingEmitsNothing(t, env, rows[1..]);
      assert Feeds(rows)[1..] == Feeds(rows[1..]);
      var tail := Run(t, env, Feeds(rows[1..]));
      assert Run(s, env, Feeds(rows)) == Trace(tail.state, [Returned(false)] + tail.outcomes);
      assert StreamBase(t, rows[1..]) == StreamBase(s, rows);
      assert s.buffer + rows == (s.buffer + [rows[0]]) + rows[1..];
      forall k | 0 <= k < |rows| ensures ([Returned(false)] + tail.outcomes)[k] == Returned(false) {
      }
    }
  }

  /** One input call before the fit: the row is buffered and the call returns false. */
  lemma BufferOne(s: State, env: Env, inst: Instance)
    requires Valid(s) && s.inputFormat.Some? && !s.firstBatchDone
    ensures Input(s, env, inst) == Step(OpenBatch(s).(buffer := s.buffer + [inst]), Returned(false))
  {
  }

  /**
   * The first batch end to end: after setInputFormat, input of the rows and
   * batchFinished, a successful batchFinished has fitted the filter on
   * exactly those rows and queued each of them, converted, exactly once and
   * in their original order.
   */
  lemma FirstBatchEmitsEachRowOnce(s: State, env: Env, format: Format, rows: seq<Instance>)
    requires Valid(s)
    ensures var s0 := SetInputFormat(s, format).0;
      var fed := Run(s0, env, Feeds(rows));
      var fin := BatchFinished(fed.state, env);
      && (forall k :: 0 <= k < |rows| ==> fed.outcomes[k] == Returned(false))
      && fed.state.queue == []
      && (fin.outcome.Returned? <==>
            && RunSetup(s.config, env, s.hasClass, format, rows).fit.Ok?
            && AllConvert(RunSetup(s.config, env, s.hasClass, format, rows).fit.value, env.cos, format.classIndex, rows))
      && (fin.outcome.Returned? ==>
            && RunSetup(s.config, env, s.hasClass, format, rows).fit == Ok(fin.state.fit.value)
            && |fin.state.queue| == |rows|
            && fin.outcome.ready == (|rows| != 0)
            && forall k :: 0 <= k < |rows| ==>
                 Convert(fin.state.fit.value, env.cos, format.classIndex, rows[k]) == Ok(fin.state.queue[k]))
  {
    var s0 := SetInputFormat(s, format).0;
    BufferingEmitsNothing(s0, env, rows);
    assert s0.buffer + rows == rows;
  }

  /**
   * A new filter with the default settings: input and batchFinished throw
   * before an input header is set, leaving the state as it was; the first
   * successful batch fits 10 components drawn from the stream of seed 1.
   */
  lemma NewFilterDefaults(env: Env, inst: Instance, format: Format, rows: seq<Instance>)
    ensures var s := Init(DefaultConfig());
      && Input(s, env, inst) == Step(s, Threw(NoInputFormat))
      && BatchFinished(s, env) == Step(s, Threw(NullInputFormat))
      && var fin := BatchFinished(Run(SetInputFormat(s, format).0, env, Feeds(rows)).state, env);
         fin.outcome.Returned? ==>
           && fin.state.fit.value.numComponents == 10
           && fin.state.fit.value.params == Generate(env.random(1), 10, fin.state.fit.value.numAttribs)
           && |fin.state.fit.value.output.attributes| == (if fin.state.hasClass then 11 else 10)
  {
    FirstBatchEmitsEachRowOnce(Init(DefaultConfig()), env, format, rows);
  }

  /**
   * With the seed's draws in [0, 1), a successful first batchFinished fits
   * weights and biases in [-1, 1).
   */
  lemma FirstFitInRange(s: State, env: Env)
    requires Valid(s) && s.inputFormat.Some? && !s.firstBatchDone && UnitDraws(env.random(s.config.seed))
    ensures var fin := BatchFinished(s, env);
      fin.outcome.Returned? ==>
        var f := fin.state.fit.value;
        && (forall i, j :: 0 <= i < f.numComponents && 0 <= j < f.numAttribs ==> -1.0 <= f.params.weights[i][j] < 1.0)
        && (forall i :: 0 <= i < f.numComponents ==> -1.0 <= f.params.biases[i] < 1.0)
  {
    SetupInRange(s.config, env, s.hasClass, s.inputFormat.value, s.buffer);
  }

  /**
   * With a cosine in [-1, 1], the rows a successful first batchFinished
   * queues have the output width and every generated slot in [-1, 1].
   */
  lemma FirstQueueInRange(s: State, env: Env)
    requires Valid(s) && s.inputFormat.Some? && !s.firstBatchDone && CosineRange(env.cos)
    ensures var fin := BatchFinished(s, env);
      fin.outcome.Returned? ==>
        var f := fin.state.fit.value;
        forall k :: 0 <= k < |fin.state.queue| ==>
          |fin.state.queue[k].values| == |f.output.attributes|
          && forall j :: 0 <= j < f.numComponents ==> -1.0 <= fin.state.queue[k].values[j] <= 1.0
  {
    var fin := BatchFinished(s, env);
    if fin.outcome.Returned? {
      ConvertedRowsInRange(fin.state.fit.value, env.cos, s.inputFormat.value.classIndex, s.buffer, fin.state.queue);
    }
  }

  /** The queue input calls start from: emptied when they open a new batch. */
  function StreamBase(s: State, rows: seq<Instance>): seq<Instance> {
    if s.newBatch && |rows| > 0 then [] else s.queue
  }

  /**
   * After the fit, input calls on rows that convert each return true and
   * leave the fit and the buffer as they were.
   */
  lemma {:induction false} StreamingReturnsTrue(s: State, env: Env, rows: seq<Instance>)
    requires Valid(s) && s.inputFormat.Some? && s.firstBatchDone
    requires AllConvert(s.fit.value, env.cos, s.inputFormat.value.classIndex, rows)
    ensures Run(s, env, Feeds(rows)).state.fit == s.fit
    ensures Run(s, env, Feeds(rows)).state.buffer == s.buffer
    ensures forall k :: 0 <= k < |rows| ==> Run(s, env, Feeds(rows)).outcomes[k] == Returned(true)
    decreases |rows|
  {
    if |rows| > 0 {
      var first := Input(s, env, rows[0]);
      StreamOne(s, env, rows[0]);
      AllConvertTail(s.fit.value, env.cos, s.inputFormat.value.classIndex, rows);
      StreamingReturnsTrue(first.state, env, rows[1..]);
      assert Feeds(rows)[1..] == Feeds(rows[1..]);
    }
  }

  /**
   * After the fit, input calls on rows that convert leave the queue they
   * started from followed by exactly what the batch loop would push for
   * those rows.
   */
  lemma {:induction false} StreamingQueue(s: State, env: Env, rows: seq<Instance>)
    requires Valid(s) && s.inputFormat.Some? && s.firstBatchDone
    requires AllConvert(s.fit.value, env.cos, s.inputFormat.value.classIndex, rows)
    ensures Run(s, env, Feeds(rows)).state.queue
      == StreamBase(s, rows) + ConvertAll(s.fit.value, env.cos, s.inputFormat.value.classIndex, rows).out
    decreases |rows|
  {
    if |rows| > 0 {
      var ci := s.inputFormat.value.classIndex;
      var v := Convert(s.fit.value, env.cos, ci, rows[0]).value;
      var rest := rows[1..];
      var base := StreamBase(s, rows);
      var t := s.(queue := base + [v], newBatch := false);
      StreamOne(s, env, rows[0]);
      AllConvertTail(s.fit.value, env.cos, ci, rows);
      StreamingQueue(t, env, rest);
      assert Feeds(rows)[1..] == Feeds(rest);
      assert Run(s, env, Feeds(rows)).state == Run(t, env, Feeds(rest)).state;
      assert ConvertAll(s.fit.value, env.cos, ci, rows).out == [v] + ConvertAll(s.fit.value, env.cos, ci, rest).out;
      AppendAssoc(base, [v], ConvertAll(s.fit.value, env.cos, ci, rest).out);
    }
  }

  /**
   * After the fit, input calls, from the first row of a new batch on, queue
   * each row, converted, at once and in order after the queue they started
   * from.
   */
  lemma StreamingConvertsInOrder(s: State, env: Env, rows: seq<Instance>)
    requires Valid(s) && s.inputFormat.Some? && s.firstBatchDone
    requires AllConvert(s.fit.value, env.cos, s.inputFormat.value.classIndex, rows)
    ensures |Run(s, env, Feeds(rows)).state.queue| == |StreamBase(s, rows)| + |rows|
    ensures Run(s, env, Feeds(rows)).state.queue[..|StreamBase(s, rows)|] == StreamBase(s, rows)
    ensures forall k :: 0 <= k < |rows| ==>
      Convert(s.fit.value, env.cos, s.inputFormat.value.classIndex, rows[k])
      == Ok(Run(s, env, Feeds(rows)).state.queue[|StreamBase(s, rows)| + k])
  {
    StreamingQueue(s, env, rows);
    var base := StreamBase(s, rows);
    var out := ConvertAll(s.fit.value, env.cos, s.inputFormat.value.classIndex, rows).out;
    var q := Run(s, env, Feeds(rows)).state.queue;
    assert q[..|base|] == base;
    forall k | 0 <= k < |rows|
      ensures Convert(s.fit.value, env.cos, s.inputFormat.value.classIndex, rows[k]) == Ok(q[|base| + k])
    {
      assert q[|base| + k] == out[k];
    }
  }

  lemma AppendAssoc(a: seq<Instance>, b: seq<Instance>, c: seq<Instance>)
    ensures (a + b) + c == a + (b + c)
  {
  }

  /** One input call after the fit, on a row that converts. */
  lemma StreamOne(s: State, env: Env, inst: Instance)
    requires Valid(s) && s.inputFormat.Some? && s.firstBatchDone
    requires Convert(s.fit.value, env.cos, s.inputFormat.value.classIndex, inst).Ok?
    ensures var r := Input(s, env, inst);
      && r.outcome == Returned(true)
      && r.state == s.(queue := StreamBase(s, [inst]) + [Convert(s.fit.value, env.cos, s.inputFormat.value.classIndex, inst).value],
                       newBatch := false)
  {
  }

  /**
   * Reusing the filter on a header without a class after one with a class:
   * the flag is still set, so setup throws when it asks for the class
   * attribute, whatever rows were buffered.
   */
  lemma StickyClassBreaksClasslessRefit(s: State, env: Env, format: Format, rows: seq<Instance>)
    requires Valid(s) && s.hasClass && !format.HasClass() && s.config.numComponents >= 0
    ensures var s0 := SetInputFormat(s, format).0;
      var fed := Run(s0, env, Feeds(rows));
      && fed.state.hasClass
      && BatchFinished(fed.state, env).outcome == Threw(UnassignedClass)
  {
    var s0 := SetInputFormat(s, format).0;
    BufferingEmitsNothing(s0, env, rows);
  }
}
