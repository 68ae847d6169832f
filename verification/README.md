# Fraud-detection demo service, modelled in Dafny

The service is one script. At start-up it synthesises labelled transactions,
trains a small neural network on them, and answers `POST /detect` with a
fraud probability and a verdict. This project models the two pieces of that
script that carry logic of their own. Both are written as pure functions.

- **The label synthesiser** (`synthesizer.dfy`, module `Synthesizer`).
  Each transaction takes four random draws. The amount is `draw * 1000`,
  the transaction type is `Math.round(draw)`, and location risk and time of
  day are raw draws. An ordered chain of rules then gives a 0/1 label.
  A fifth draw is taken only when no rule decides. The emitted row scales
  the amount down by 1000, while the rules compare the raw amount.
  `Math.random()` is replaced by an explicit `seq<real>` of draws, consumed
  from the front. `GenerateData` runs `count` iterations. `GenerateDataLoop`
  is the same loop written iteration by iteration, as the script writes it.
  `SynthesizeSplits` produces the 800-sample training set, then the
  200-sample validation set from the draws that follow.
- **The `/detect` handler** (`detect.dfy`, module `DetectHandler`).
  The trained network is an opaque `Predictor`, a function from
  `seq<real>` to `real`. The module-level `model` variable is an
  `Option<Predictor>`. The handler checks readiness, then checks that all
  four fields are present, then scores the normalised vector. It echoes the
  raw fields, sets `is_fraud` iff the probability exceeds 0.5, and picks the
  message from that verdict. `Phase`, `Advance` and `ModelReference` record
  when the `model` variable becomes set during start-up, that it stays set,
  and which weights the network it holds carries while `fit` runs.

`optional.dfy` holds the `Option` datatype shared by both modules.

JavaScript numbers are modelled as `real`. A sequence of draws that runs out
makes a generator run return `None`. This is an artefact of the model, since
`Math.random()` never runs out. Five draws per sample always suffice
(`GenerateDataEnoughDraws`).

Four behaviours of the code are worth stating:

- The amount is drawn from [0, 1000), because `Math.random()` never returns 1.
- Readiness means only that the `model` variable is assigned. The variable
  is assigned when the network is built (index.js:48), before `fit` is
  awaited (index.js:60). A complete request that arrives while training runs
  is scored by the partly trained network: `fit` updates the weights of the
  object already held by `model` in place, and such a request sees the
  weights of the latest update (`UnavailableOnlyBeforeConstruction`,
  `LatestWeightsServe`).
  The `listen` callback (index.js:99-102) runs `createAndTrainModel`
  synchronously up to that first `await`, so lines 45-58, including the
  assignment, finish before any request can be dispatched. On a normal
  start the 503 branch (index.js:73-74) is therefore never taken
  (`NoUnavailableAfterListenCallback`). It could be taken only if lines 45-58
  threw and the process survived the unhandled rejection.
- A rejection from `fit` is not handled anywhere: it propagates out of the
  async `listen` callback. Under the default unhandled-rejection mode of
  Node 15 and later, that ends the process, so no further request is scored.
- `is_fraud` compares the unrounded probability with 0.5. The 4-decimal
  string is rendered separately, so a probability of 0.50004 is sent as
  "0.5000" with `is_fraud` true.

## Model

| member | source | states |
|---|---|---|
| `Synthesizer.FirstRule` | index.js:27-37 | the chain picks rule 1 exactly when its condition holds, rule 2 exactly when rule 1 fails and rule 2 holds, the random fallthrough exactly when all three conditions fail; rule 3 is picked exactly when its own condition holds, because it is disjoint from rules 1 and 2 |
| `Synthesizer.JsRound` | index.js:24 | `Math.round` gives the integer `r` with `r - 0.5 <= x < r + 0.5`, so halves round up |
| `Synthesizer.DrawTransaction` | index.js:22-25 | the amount divided by 1000 is the first draw; location risk and time of day are the second and fourth draws; the transaction type is 0 for a third draw in [0, 0.5) and 1 for one in [0.5, 1) |
| `Synthesizer.FeatureRow` | index.js:39 | the row has four features; its transparent body `[amount/1000, locationRisk, transactionType, timeOfDay]` is the definition, and `NormalisationRoundTrip` is its partner |
| `Synthesizer.RuleLabel` | index.js:27-37 | the label is 0 or 1, and it is 1 exactly for rules 1 and 2, or for the fallthrough when its draw is below 0.05 |
| `Synthesizer.NormalisationRoundTrip` | index.js:39 | the raw transaction can be read back from the emitted row `[amount/1000, locationRisk, transactionType, timeOfDay]`, so the rule for the row is the rule for the raw transaction |
| `Synthesizer.DrawSample` | index.js:22-40 | one iteration succeeds iff four draws exist, plus a fifth when no rule decides; rule 1 or rule 2 gives label 1 and rule 3 gives label 0, all using exactly four draws whatever follows; the fallthrough uses five draws and gives label 1 iff the fifth draw is below 0.05; the label is always 0 or 1 |
| `Synthesizer.LabelClosedForm` | index.js:27-37 | an order-free reading of the chain: the label is 1 iff rule 1 or rule 2 holds, or rule 3 fails and the fifth draw is below 0.05 |
| `Synthesizer.DecidedSampleIgnoresLaterDraws` | index.js:29-35 | a transaction decided by rules 1-3 reads only its four feature draws; appending any draws changes neither its label nor its draw count |
| `Synthesizer.GenerateData` | index.js:18-43 | a successful run yields exactly `count` rows and `count` labels and consumes no more draws than it was given |
| `Synthesizer.GenerateDataLabelsAgree` | index.js:21-40 | row `i` and label `i` come from the same iteration: each row has four features, each label is 0 or 1, and each label equals the one the deterministic rules fix for its row whenever they fix one |
| `Synthesizer.GenerateDataUsage` | index.js:21-37 | a run consumes four draws per row plus one for each row whose label was left to chance |
| `Synthesizer.GenerateDataRowsInRange` | index.js:22-39 | with draws in [0, 1), every row has its scaled amount, location risk and time of day in [0, 1) and its transaction type 0 or 1 |
| `Synthesizer.GenerateDataEnoughDraws` | index.js:21-41 | five draws per requested sample always make the run succeed |
| `Synthesizer.GenerateDataIgnoresLaterDraws` | index.js:21-41 | draws appended after a successful run change nothing, because samples take their draws from the front |
| `Synthesizer.GenerateDataSnoc` | index.js:21-41 | the first `n` samples of a run form a run of their own, and the next iteration appends its row and label after them |
| `Synthesizer.GenerateDataLoop` | index.js:18-43 | the push-per-iteration loop returns exactly what the recursive definition returns, including `None` when the draws run out |
| `Synthesizer.SynthesizeSplits` | index.js:45-46 | the training set has 800 rows and labels, the validation set has 200, together they consume no more than the draws given, and 5000 draws always suffice |
| `DetectHandler.AnyUndefined` | index.js:79 | the handler's chained `=== undefined` test holds exactly when the set of missing required fields, defined independently field by field, is non-empty |
| `DetectHandler.InputVector` | index.js:83 | the vector given to the predictor is the training-time row of the same raw transaction, so serving normalises the amount as training did |
| `DetectHandler.VerdictMessage` | index.js:95 | the message is "Potential Fraudulent Transaction" iff the verdict is fraud, and "Legitimate Transaction" iff it is not |
| `DetectHandler.Detect` | index.js:72-97 | 503 iff the model reference is unset, whatever the body; otherwise 400 iff a field is missing, and nothing else is checked; otherwise 200, echoing the four raw fields, with the probability the predictor gives the normalised row, `is_fraud` iff that probability exceeds 0.5, and the message that matches the verdict |
| `DetectHandler.EchoRoundTrip` | index.js:88-92 | with a model and a complete body, the response is a success, and the request body can be rebuilt from it unchanged |
| `DetectHandler.Response.Status` | index.js:74-88 | a 503 for the not-ready response, a 400 for the missing-parameters response and the implicit 200 of `res.json` for a scored one; no other status is sent |
| `DetectHandler.ModelReference` | index.js:48 | the module-level `model` variable is unset exactly in the phase before the network is built and assigned |
| `DetectHandler.Advance` | index.js:48-60 | building the network moves start-up from listening to fitting with that network, each in-place weight update during `fit` replaces the network being trained, `fit` resolving moves it to trained, and no step returns to the unassigned phase |
| `DetectHandler.LatestWeightsServe` | index.js:60 | while `fit` runs, the `model` variable holds the network with the weights of the latest in-place update, or the network as built if there has been none |
| `DetectHandler.ReferenceStaysSet` | index.js:48-60 | once the `model` variable is assigned, it stays assigned after any sequence of later start-up events |
| `DetectHandler.UnsetUntilBuilt` | index.js:48-60 | from the start, the `model` variable is unset exactly as long as no network has been built |
| `DetectHandler.NoUnavailableAfterListenCallback` | index.js:45-74 | a request dispatched after the listening callback's synchronous part, which builds and assigns the network, is never answered 503, and a complete one is scored, whatever start-up events follow |
| `DetectHandler.UnavailableOnlyBeforeConstruction` | index.js:73-74 | the handler answers 503 exactly before the network is built; a complete request during training is scored by the network being trained |

## Left out

- TensorFlow model construction, `compile`, `fit` and `predict` (index.js:48-68, 84-85) are left out. They are a foreign numerical library. The trained network is an arbitrary `Predictor`, and the network architecture, loss, optimiser and epoch count are not modelled.
- `Math.random()` is left out. It becomes the explicit draw sequence. Uniformity of the draws is not modelled; `UnitDraws` records only their range.
- IEEE-754 rounding is left out. `amount / 1000`, `Math.random() * 1000` and the threshold comparisons are exact `real` arithmetic.
- `fraudProbability.toFixed(4)` (index.js:93) is left out. The response carries the real probability itself.
- `tf.tensor2d` packaging (index.js:42, 83) is left out. Rows and labels are plain sequences.
- Express wiring, JSON parsing, `app.listen`, the async start-up sequence and console logging (index.js:1-7, 59-69, 99-108) are left out. They are I/O. `Phase`, `StartupEvent` and `Advance` record when the `model` variable is set and which weights its network carries; how `fit` computes them, epochs and callbacks, is not modelled.
- Non-numeric request values are left out, and the model types the four fields as numbers. The handler accepts `null`, strings, arrays and the like, because it tests only `=== undefined`. Only `amount` goes through `/ 1000` (index.js:83), where JavaScript coerces it. The other three fields reach `tf.tensor2d` exactly as sent. An array there makes `tf.tensor2d` throw inside the async handler (index.js:72), so the handler's promise rejects. Express 4 does not catch a rejected handler promise: the rejection is unhandled, and under the default mode of Node 15 and later (see above) the process exits, so every client loses the service. Express 5 catches it and answers 500. The repository does not pin the Express version.
- A rejected `fit` is left out: the process ends (see above), and `Phase` has no state for it.
- Response bodies of 503 and 400 are modelled as their text only. The HTTP status is `Response.Status`.
