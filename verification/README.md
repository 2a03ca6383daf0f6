# RandomNonlinearMap in Dafny

A verified model of the core of Weka's `RandomNonlinearMap` filter. The filter
maps every row of a dataset to random nonlinear features, in the style of random
kitchen sinks. Component `j` of an output row is
`cos(bias_j + Σ_i weight[j][i]·x_i)`. The weight matrix and the bias vector are
drawn once from a seeded random stream. The class value, when the data has one,
is appended after the components.

The model has six modules:

- `Data` (`data.dfy`): dataset headers (`Format`), rows (`Instance`: values,
  weight, sparse or dense), and the exceptions the filter throws, modelled as
  `Error` inside a `Result`.
- `Projection` (`projection.dfy`): the random stream is a function from draw
  position to real (`Draws`). `DrawComponents` consumes the stream the way
  `determineOutputFormat` does: for each component, its weights and then its bias.
  It also holds the running sum that the conversion loop takes a cosine of.
- `Schema` (`schema.dfy`): the output header. It holds one numeric attribute
  named `"random feature " + i` per component, then a copy of the input's class
  attribute as the output class.
- `Setup` (`setup.dfy`): the deletion list built by `setup`, the number of
  numeric attributes left after removal, the sticky class flag, and the fit.
- `Conversion` (`conversion.dfy`): `convertInstance` for one row, and the loop
  of `batchFinished` over the buffered rows.
- `Protocol` (`protocol.dfy`): the filter object as an explicit state. The state
  holds the input header, the buffer, the output queue, `newBatch`,
  `firstBatchDone`, the class flag and the fit. `setInputFormat`, `input` and
  `batchFinished` are functions from state to state and outcome. There are also
  lemmas over whole sequences of calls.

Code the filter calls but does not define is passed in as the fields of `Env`:

- `random`: the seeded stream for each seed, standing for `java.util.Random`.
- `cos`: an uninterpreted real function, standing for `Math.cos`.
- `encode`: the statistics that `ReplaceMissingValues` followed by
  `NominalToBinary` report for the training data. These are the number of
  distinct values per encoded attribute, and the encoded class index.

The ranges the source relies on are predicates that the range lemmas require:
draws lie in [0, 1) (`UnitDraws`) and the cosine lies in [-1, 1] (`CosineRange`).

Behaviour of the inherited `Filter` base class is modelled only by its effect on
the explicit state:

- `setInputFormat` stores the header with no rows and empties the queue. It sets
  `newBatch` and clears `firstBatchDone`.
- `bufferInput` appends a row to the buffer.
- `push` appends a row to the queue.
- `flushInput` empties the buffer.
- `resetQueue` empties the queue.
- `setOutputFormat`, called from `setup`, replaces the output header and empties
  the queue.

Behaviour of the source worth noting:

- `convertInstance` reads the row's raw values `instance.value(i)` for
  `i < numAttribs`. It does not apply the preprocessing filters, even though
  `numAttribs` counts the columns left after preprocessing.
- The seed is the field `m_RandomSeed = 1`. No option or setter changes it.
- `m_HasClass` is only ever set to true, so it stays set across `setInputFormat`.
  `StickyClassBreaksClasslessRefit` shows what follows: a filter that once saw a
  class throws from `batchFinished` when it is reused on a header without one.
- An exception keeps the mutations made before it. `input` has already emptied
  the queue of a new batch before a conversion fails. `batchFinished` keeps the
  rows queued before a failing row. On data with a class, `setup` has already
  set the class flag before `new double[m_NumNonlinearComponents][…]` throws
  for a negative component count.

## Model

| member | source | states |
|---|---|---|
| `Projection.DrawComponents` | src/main/java/weka/filters/unsupervised/attribute/RandomNonlinearMap.java:225-235 | the parameters have numComponents weight rows of numAttribs entries each and numComponents biases |
| `Projection.GenerateLayout` | src/main/java/weka/filters/unsupervised/attribute/RandomNonlinearMap.java:228-235 | draws are consumed row-major with each bias last: weight[i][j] is `2u-1` of draw i(numAttribs+1)+j and bias[i] is that of draw i(numAttribs+1)+numAttribs |
| `Projection.GenerateInRange` | src/main/java/weka/filters/unsupervised/attribute/RandomNonlinearMap.java:230-235 | given draws in [0,1), every weight and every bias lies in [-1,1) |
| `Projection.GenerateDependsOnPrefix` | src/main/java/weka/filters/unsupervised/attribute/RandomNonlinearMap.java:228-235 | two streams that agree on the first numComponents(numAttribs+1) draws, such as two streams from the same seed, give identical weights and biases |
| `Projection.AccumulateIsDot` | src/main/java/weka/filters/unsupervised/attribute/RandomNonlinearMap.java:273-277 | the loop's running sum, started at the bias and added in ascending attribute order, equals the bias plus the dot product of the weight row with the first numAttribs values |
| `Schema.FeatureNameRoundTrip` | src/main/java/weka/filters/unsupervised/attribute/RandomNonlinearMap.java:236 | the name `"random feature " + i` reads back as component i |
| `Schema.FeatureNamesDistinct` | src/main/java/weka/filters/unsupervised/attribute/RandomNonlinearMap.java:236 | different components get different attribute names |
| `Schema.OutputFormat` | src/main/java/weka/filters/unsupervised/attribute/RandomNonlinearMap.java:236-250 | the header has numComponents generated numeric attributes in order, then the input's class attribute when there is a class, which is then the class at the last position; its width is numComponents plus one for a class; it fails exactly when a class is wanted but the input header has none |
| `Schema.OutputNames` | src/main/java/weka/filters/unsupervised/attribute/RandomNonlinearMap.java:231-237 | in any output header, generated attribute i names component i, and the generated names are pairwise distinct |
| `Setup.DegenerateFrom` | src/main/java/weka/filters/unsupervised/attribute/RandomNonlinearMap.java:325-330 | lists exactly the encoded columns with at most one distinct value, in strictly ascending order |
| `Setup.DeletionList` | src/main/java/weka/filters/unsupervised/attribute/RandomNonlinearMap.java:325-337 | the deletion list is the ascending degenerate columns followed by the class index when there is a class; an index is listed iff it is degenerate or the class |
| `Setup.Surviving` | src/main/java/weka/filters/unsupervised/attribute/RandomNonlinearMap.java:339-350 | the columns kept by removal are exactly those in range that are not listed, in ascending order, whether an index is listed once or twice |
| `Setup.SurvivingNone` | src/main/java/weka/filters/unsupervised/attribute/RandomNonlinearMap.java:340 | removing an empty list keeps every column |
| `Setup.NumAttribsCountsInformative` | src/main/java/weka/filters/unsupervised/attribute/RandomNonlinearMap.java:324-356 | the projection's input width counts exactly the encoded columns with more than one distinct value other than the class; skipping removal for an empty list agrees with removing nothing |
| `Setup.RunSetup` | src/main/java/weka/filters/unsupervised/attribute/RandomNonlinearMap.java:303-359 | setup sets the class flag to its old value or whether the data has a class; it fails iff numComponents is negative (NegativeArraySizeException from the allocation at 225) or a class is wanted but the header has none (UnassignedClassException from classAttribute at 240 when the class index is unset); on success the fit is well-shaped, carries that flag, its parameters come from the stream of the configured seed at the computed width, and its output header is exactly the one the schema builds for that component count and flag |
| `Setup.SetupInRange` | src/main/java/weka/filters/unsupervised/attribute/RandomNonlinearMap.java:228-235 | with the seed's draws in [0,1), a successful setup fits every weight and bias in [-1,1) |
| `Conversion.Convert` | src/main/java/weka/filters/unsupervised/attribute/RandomNonlinearMap.java:262-294 | a converted row has exactly m_OutputNumAtts values, carries the input's class value unchanged in slot numComponents when there is a class, and keeps the weight and the sparse/dense kind; it fails iff a value it reads lies outside the row |
| `Conversion.ConvertedFeature` | src/main/java/weka/filters/unsupervised/attribute/RandomNonlinearMap.java:272-280 | slot j is the cosine of bias j plus the dot product of weight row j with the raw row's first numAttribs values, so it lies in [-1,1] |
| `Conversion.ConvertedRowsInRange` | src/main/java/weka/filters/unsupervised/attribute/RandomNonlinearMap.java:272-283 | rows converted position by position have the output width, and with a cosine in [-1,1] every generated slot lies in [-1,1] |
| `Conversion.ConvertReadsOnlyUsedValues` | src/main/java/weka/filters/unsupervised/attribute/RandomNonlinearMap.java:270-291 | two rows that agree on their first numAttribs values, their class value, weight and kind convert to the same row |
| `Conversion.ConvertAll` | src/main/java/weka/filters/unsupervised/attribute/RandomNonlinearMap.java:440-444 | rows are converted in order and stop at the first failure: each pushed row is the conversion of the row at the same position, and all rows are pushed iff none failed |
| `Conversion.AllConvertTail` | src/main/java/weka/filters/unsupervised/attribute/RandomNonlinearMap.java:440-444 | a batch converts without an exception exactly when its first row and the remaining rows do |
| `Protocol.Init` | src/main/java/weka/filters/unsupervised/attribute/RandomNonlinearMap.java:93-99 | a new filter holds the given settings, has no input header, an empty buffer and queue, a new first batch not yet done, output width -1 and no class, and satisfies the state invariant |
| `Protocol.SetInputFormat` | src/main/java/weka/filters/unsupervised/attribute/RandomNonlinearMap.java:374-382 | returns false, resets the output width to -1, starts a new first batch with empty buffer and queue, and leaves the class flag as it was |
| `Protocol.Input` | src/main/java/weka/filters/unsupervised/attribute/RandomNonlinearMap.java:394-415 | throws without an input header; the first row of a new batch empties the queue; before the first batch is done the row is buffered and the call returns false; afterwards exactly one converted row is queued and it returns true, or the conversion's exception is thrown; the fit never changes |
| `Protocol.Prepare` | src/main/java/weka/filters/unsupervised/attribute/RandomNonlinearMap.java:436-438 | setup runs only before the first batch is done, on the buffered rows, and succeeds exactly when the setup computation does; the class flag afterwards is the one setup set, even when it then throws; a failed setup carries setup's own exception and leaves the queue and fit as they were; a successful one empties the queue and installs its fit; the batch will succeed exactly when the prepared fit converts every buffered row |
| `Protocol.Drain` | src/main/java/weka/filters/unsupervised/attribute/RandomNonlinearMap.java:440-450 | returns exactly when every buffered row converts; the queue always ends as the old queue followed by the rows the loop pushed, so a failing row leaves the rows converted before it queued and nothing after it, and the exception thrown is that row's conversion exception; on success every buffered row is queued, converted, exactly once and in order, the buffer is emptied, both flags are set, and the call returns whether output is pending; a failure leaves the buffer, flags and fit untouched |
| `Protocol.FinishFirst` | src/main/java/weka/filters/unsupervised/attribute/RandomNonlinearMap.java:436-450 | batchFinished on the first batch returns exactly when setup on the buffered rows succeeds and its fit converts them all; the class flag is always the one setup set; a failed setup throws setup's exception with the queue and fit as they were; a successful setup's fit stays installed whether or not a row then fails, and a failing row throws its conversion exception with the conversions pushed before it queued; on success the queue holds exactly the buffered rows' conversions in order, the buffer is empty and both flags are set |
| `Protocol.FinishFormatted` | src/main/java/weka/filters/unsupervised/attribute/RandomNonlinearMap.java:434-451 | with a header set, batchFinished on the first batch returns exactly when setup succeeds and its fit converts every buffered row, with setup's class flag, setup's exception and the old queue and fit when setup fails, the new fit and the rows pushed before a failing row with that row's exception when a row fails, and every buffered row's conversion queued once and in order on success; after the first batch nothing is buffered, so it returns whether output is pending with the queue as it stands and only sets the new-batch flag |
| `Protocol.BatchFinished` | src/main/java/weka/filters/unsupervised/attribute/RandomNonlinearMap.java:425-451 | throws NullPointerException without an input header, leaving the state unchanged, and otherwise is exactly the header-set case above, with all its success and failure guarantees; it returns exactly when there is a header and the fit in force (the existing one, or setup on the buffered rows) converts every buffered row |
| `Protocol.FitNeverRegenerated` | src/main/java/weka/filters/unsupervised/attribute/RandomNonlinearMap.java:436-438 | after the first batch, no sequence of input and batchFinished calls changes the weights, biases or output header |
| `Protocol.LaterBatchesNeverFail` | src/main/java/weka/filters/unsupervised/attribute/RandomNonlinearMap.java:406-410 | once the first batch is done, through any input and batchFinished calls the buffer stays empty and every batchFinished returns rather than throws, because input converts rows at once instead of buffering them |
| `Protocol.LaterBatchConvertsNothing` | src/main/java/weka/filters/unsupervised/attribute/RandomNonlinearMap.java:440-450 | a batchFinished after the first batch converts nothing: it returns whether output is pending, leaves the queue, fit and buffer as they are, and only marks the next call as opening a new batch |
| `Protocol.HasClassSticky` | src/main/java/weka/filters/unsupervised/attribute/RandomNonlinearMap.java:332-334 | once set, the class flag stays set through any sequence of calls, setInputFormat included |
| `Protocol.BufferingEmitsNothing` | src/main/java/weka/filters/unsupervised/attribute/RandomNonlinearMap.java:401-414 | before the fit, input calls each return false and leave the state exactly as it was except that their rows are appended to the buffer in order, the queue is emptied if a new batch was opened, and the batch flag is cleared |
| `Protocol.FirstBatchEmitsEachRowOnce` | src/main/java/weka/filters/unsupervised/attribute/RandomNonlinearMap.java:394-451 | after setInputFormat and inputs, batchFinished returns exactly when setup on those rows succeeds and its fit converts every row; then the fit is that one and the queue holds each row's conversion exactly once, in input order |
| `Protocol.StreamingConvertsInOrder` | src/main/java/weka/filters/unsupervised/attribute/RandomNonlinearMap.java:401-410 | after the fit, input calls (starting a new batch or not) append each row's conversion to the queue in order, after the queue as it stood or an emptied one if the first call opened a new batch |
| `Protocol.StreamingReturnsTrue` | src/main/java/weka/filters/unsupervised/attribute/RandomNonlinearMap.java:401-410 | after the fit, input calls on rows that convert each return true and change neither the fit nor the buffer |
| `Protocol.StreamingQueue` | src/main/java/weka/filters/unsupervised/attribute/RandomNonlinearMap.java:401-410 | after the fit, input calls on rows that convert leave exactly the queue they started from (emptied if they opened a new batch) followed by what the batch loop would push for the same rows |
| `Protocol.StickyClassBreaksClasslessRefit` | src/main/java/weka/filters/unsupervised/attribute/RandomNonlinearMap.java:239-241 | a filter that once had a class, reused on a header without one, still has the flag and throws UnassignedClass from batchFinished |
| `Protocol.NewFilterDefaults` | src/main/java/weka/filters/unsupervised/attribute/RandomNonlinearMap.java:93-99 | a new filter with the default settings rejects input (IllegalStateException) and batchFinished (NullPointerException) before a header is set, leaving its state unchanged, and its first successful batch fits 10 components drawn from the stream of seed 1, with 10 or 11 output attributes |
| `Protocol.FirstFitInRange` | src/main/java/weka/filters/unsupervised/attribute/RandomNonlinearMap.java:228-235 | with the seed's draws in [0,1), a successful first batchFinished leaves every weight and bias in [-1,1) |
| `Protocol.FirstQueueInRange` | src/main/java/weka/filters/unsupervised/attribute/RandomNonlinearMap.java:272-283 | with a cosine in [-1,1], every row a successful first batchFinished queues has the output width and every generated slot in [-1,1] |

## Left out

- The internals of `ReplaceMissingValues`, `NominalToBinary` and `Remove` are not
  modelled. They are library filters. Encoding is the opaque `Env.encode`, and only
  the count of columns that `Remove` leaves is modelled.
- `java.util.Random` is not modelled. Its stream for a seed is the opaque
  `Env.random`, and its draws are assumed to lie in [0, 1).
- IEEE double arithmetic and `Math.cos` are not modelled. Values are mathematical
  reals, and `cos` is an opaque function assumed to range over [-1, 1]. So there
  is no NaN: a missing raw value, which Weka stores as NaN, is not modelled.
- `SparseInstance.value(i)` returns 0 for an index past the stored entries. The
  model treats every row as having its full value list, and any read outside that
  list fails as it does for a dense row. The sparse/dense kind is carried as a flag.
- A class attribute named like a generated attribute would make the output
  header's constructor reject duplicate names. That check belongs to the library
  header constructor and is not modelled.
- `getCapabilities` and `testWithFail` are library capability checks, including the
  check for too few attributes after removal. They are not modelled.
- Option parsing, `listOptions`, `getOptions`, `globalInfo`, `getRevision`, `main`
  and the relation name are string glue and are not modelled. The debug print of
  the class flag in `convertInstance` is not modelled either.
- The settings are fixed for a filter's lifetime. A call to
  `setNumNonlinearComponents` after the fit is not modelled.
- Protocol.Input: reads a streamed row's class value at the class index of
  the input header, not at the class index of the dataset the row is attached
  to. A row carries no dataset here, so the exception for a row without one
  is not modelled either. Rows are assumed to belong to the input header.
- `output()` and the rest of the queue's consumer side are not modelled: the
  queue is observed directly.
- Copying row values into string/relational locators (`copyValues`, `setDataset`)
  is not modelled. It carries no numeric content.
