/** The synthetic training data of `createAndTrainModel`: four random draws per
    transaction, a binary fraud label chosen by an ordered chain of rules (with
    a fifth draw only when no rule decides), and a feature row in which the
    amount is scaled down by 1000 while the rules look at the raw amount.

    `Math.random()` is replaced by an explicit sequence of draws that the
    generator consumes from the front; a sequence that runs out yields `None`.
    JavaScript numbers are modelled as reals. */
module Synthesizer {
  import opened Optional

  /** A transaction as drawn, before normalisation. */
  datatype Transaction = Transaction(
    amount: real,
    locationRisk: real,
    transactionType: real,
    timeOfDay: real)

  /** The branch of the label chain that decides a transaction's label. */
  datatype Rule =
    | HighAmountRiskyType     // amount > 700, location risk > 0.8, type 1
    | HighAmountVeryRisky     // amount > 500, location risk > 0.9
    | LowRiskSmallAmount      // location risk < 0.2, amount < 100
    | RandomFallthrough       // none of the above: a fifth draw decides

  /** One generated sample: its feature row, its label and how many draws it
      consumed. */
  datatype Sample = Sample(row: seq<real>, isFraud: int, used: nat)

  /** The rows and labels of one `generateData` call, index for index, and the
      number of draws consumed. */
  datatype Dataset = Dataset(rows: seq<seq<real>>, labels: seq<int>, used: nat)

  const RandomFraudRate: real := 0.05
  const Legitimate: int := 0
  const Fraudulent: int := 1
  /** Draws every transaction takes before its label is decided. */
  const FeatureDraws: nat := 4

  const NumSamples: nat := 1000
  /** `numSamples * 0.8` and `numSamples * 0.2`.  Neither 0.8 nor 0.2 is exact in
      binary floating point, but both products round to exactly 800 and 200. */
  const TrainCount: nat := 800
  const ValidationCount: nat := 200

  predicate HighAmountRiskyTypeHolds(t: Transaction) {
    t.amount > 700.0 && t.locationRisk > 0.8 && t.transactionType == 1.0
  }

  predicate HighAmountVeryRiskyHolds(t: Transaction) {
    t.amount > 500.0 && t.locationRisk > 0.9
  }

  predicate LowRiskSmallAmountHolds(t: Transaction) {
    t.locationRisk < 0.2 && t.amount < 100.0
  }

  /** The first rule of the chain whose condition holds. */
  function FirstRule(t: Transaction): (rule: Rule)
    ensures rule == HighAmountRiskyType <==> HighAmountRiskyTypeHolds(t)
    ensures rule == HighAmountVeryRisky <==> !HighAmountRiskyTypeHolds(t) && HighAmountVeryRiskyHolds(t)
    // Rule 3 is disjoint from rules 1 and 2, so its place in the chain never matters.
    ensures rule == LowRiskSmallAmount <==> LowRiskSmallAmountHolds(t)
    ensures rule == RandomFallthrough <==>
      !HighAmountRiskyTypeHolds(t) && !HighAmountVeryRiskyHolds(t) && !LowRiskSmallAmountHolds(t)
  {
    if HighAmountRiskyTypeHolds(t) then HighAmountRiskyType
    else if HighAmountVeryRiskyHolds(t) then HighAmountVeryRisky
    else if LowRiskSmallAmountHolds(t) then LowRiskSmallAmount
    else RandomFallthrough
  }

  /** JavaScript's `Math.round`: the nearest integer, halves rounded up. */
  function JsRound(x: real): (r: real)
    ensures r == r.Floor as real
    ensures r - 0.5 <= x < r + 0.5
  {
    (x + 0.5).Floor as real
  }

  /** The transaction built from the first four draws. */
  function DrawTransaction(draws: seq<real>): (t: Transaction)
    requires |draws| >= FeatureDraws
    ensures t.amount / 1000.0 == draws[0]
    ensures t.locationRisk == draws[1] && t.timeOfDay == draws[3]
    ensures 0.0 <= draws[2] < 0.5 ==> t.transactionType == 0.0
    ensures 0.5 <= draws[2] < 1.0 ==> t.transactionType == 1.0
  {
    Transaction(draws[0] * 1000.0, draws[1], JsRound(draws[2]), draws[3])
  }

  /** The row the model is trained on: the amount divided by 1000, the other
      three features unchanged. */
  function FeatureRow(t: Transaction): (row: seq<real>)
    ensures |row| == 4
  {
    [t.amount / 1000.0, t.locationRisk, t.transactionType, t.timeOfDay]
  }

  /** The raw transaction a four-feature row was normalised from. */
  function RowTransaction(row: seq<real>): Transaction
    requires |row| == 4
  {
    Transaction(row[0] * 1000.0, row[1], row[2], row[3])
  }

  /** Normalisation loses nothing: the raw transaction, and hence the rule
      that labels it, can be read back from the row. */
  lemma NormalisationRoundTrip(t: Transaction)
    ensures RowTransaction(FeatureRow(t)) == t
    ensures FirstRule(RowTransaction(FeatureRow(t))) == FirstRule(t)
  {
  }

  /** The label a rule assigns; `draw` is consulted only by the fallthrough. */
  function RuleLabel(rule: Rule, draw: real): (isFraud: int)
    ensures isFraud in {Legitimate, Fraudulent}
    ensures isFraud == Fraudulent <==>
      rule in {HighAmountRiskyType, HighAmountVeryRisky} || (rule == RandomFallthrough && draw < RandomFraudRate)
  {
    match rule
    case HighAmountRiskyType => Fraudulent
    case HighAmountVeryRisky => Fraudulent
    case LowRiskSmallAmount => Legitimate
    case RandomFallthrough => if draw < RandomFraudRate then Fraudulent else Legitimate
  }

  /** One iteration of the generator loop: four draws for the transaction and,
      only when no rule decides, a fifth for the random label. */
  function DrawSample(draws: seq<real>): (r: Option<Sample>)
    ensures r.Some? <==>
      |draws| >= FeatureDraws &&
      (FirstRule(DrawTransaction(draws)) == RandomFallthrough ==> |draws| > FeatureDraws)
    ensures r.Some? ==> r.value.row == FeatureRow(DrawTransaction(draws))
    ensures r.Some? ==> r.value.isFraud in {Legitimate, Fraudulent}
    ensures r.Some? ==> r.value.used <= |draws|
    ensures |draws| >= FeatureDraws && HighAmountRiskyTypeHolds(DrawTransaction(draws)) ==>
      r == Some(Sample(FeatureRow(DrawTransaction(draws)), Fraudulent, FeatureDraws))
    ensures |draws| >= FeatureDraws && HighAmountVeryRiskyHolds(DrawTransaction(draws)) ==>
      r == Some(Sample(FeatureRow(DrawTransaction(draws)), Fraudulent, FeatureDraws))
    ensures |draws| >= FeatureDraws && LowRiskSmallAmountHolds(DrawTransaction(draws)) ==>
      r == Some(Sample(FeatureRow(DrawTransaction(draws)), Legitimate, FeatureDraws))
    ensures r.Some? && FirstRule(DrawTransaction(draws)) == RandomFallthrough ==>
      r.value.used == FeatureDraws + 1 &&
      (r.value.isFraud == Fraudulent <==> draws[FeatureDraws] < RandomFraudRate)
  {
    if |draws| < FeatureDraws then None
    else
      var t := DrawTransaction(draws);
      var rule := FirstRule(t);
      if rule != RandomFallthrough then
        Some(Sample(FeatureRow(t), RuleLabel(rule, 0.0), FeatureDraws))
      else if |draws| == FeatureDraws then None
      else
        Some(Sample(FeatureRow(t), RuleLabel(rule, draws[FeatureDraws]), FeatureDraws + 1))
  }

  /** Whether a four-feature row is one whose label came from the fifth draw. */
  predicate RowFallsThrough(row: seq<real>) {
    |row| == 4 && FirstRule(RowTransaction(row)) == RandomFallthrough
  }

  /** The label the deterministic rules fix for a row, if any. */
  function DeterminedLabel(row: seq<real>): Option<int>
  {
    if |row| != 4 then None
    else match FirstRule(RowTransaction(row))
      case HighAmountRiskyType => Some(Fraudulent)
      case HighAmountVeryRisky => Some(Fraudulent)
      case LowRiskSmallAmount => Some(Legitimate)
      case RandomFallthrough => None
  }

  /** How many rows had their label drawn at random.  Its own contract is only a
      bound; its use is in `GenerateDataUsage`, which counts a run's draws as
      four per row plus one per row counted here. */
  function FallthroughCount(rows: seq<seq<real>>): (n: nat)
    ensures n <= |rows|
  {
    if rows == [] then 0
    else (if RowFallsThrough(rows[0]) then 1 else 0) + FallthroughCount(rows[1..])
  }

  /** Every value lies in [0, 1), as `Math.random()` promises. */
  predicate UnitDraws(draws: seq<real>) {
    forall k :: 0 <= k < |draws| ==> 0.0 <= draws[k] < 1.0
  }

  /** The ranges a row drawn from unit draws has: scaled amount, location risk
      and time of day in [0, 1), transaction type 0 or 1. */
  predicate RowInRange(row: seq<real>) {
    && |row| == 4
    && 0.0 <= row[0] < 1.0
    && 0.0 <= row[1] < 1.0
    && (row[2] == 0.0 || row[2] == 1.0)
    && 0.0 <= row[3] < 1.0
  }

  /** A dataset with one sample put in front. */
  function Prepend(s: Sample, d: Dataset): Dataset
  {
    Dataset([s.row] + d.rows, [s.isFraud] + d.labels, s.used + d.used)
  }

  /** `Prepend` on a run that may have failed. */
  function PrependTo(s: Sample, d: Option<Dataset>): Option<Dataset>
  {
    match d
    case None => None
    case Some(d') => Some(Prepend(s, d'))
  }

  /** `generateData(count)`: `count` samples drawn one after another, row
      `i` and label `i` from the same iteration. */
  function GenerateData(count: nat, draws: seq<real>): (r: Option<Dataset>)
    decreases count
    ensures r.Some? ==> |r.value.rows| == count && |r.value.labels| == count
    ensures r.Some? ==> r.value.used <= |draws|
  {
    if count == 0 then Some(Dataset([], [], 0))
    else
      match DrawSample(draws)
      case None => None
      case Some(s) => PrependTo(s, GenerateData(count - 1, draws[s.used..]))
  }

  /** Every row has four features and a 0/1 label, and the label agrees with
      whatever the deterministic rules decide for that row. */
  predicate LabelsAgree(d: Dataset) {
    && |d.rows| == |d.labels|
    && forall i :: 0 <= i < |d.rows| ==>
      && |d.rows[i]| == 4
      && d.labels[i] in {Legitimate, Fraudulent}
      && (DeterminedLabel(d.rows[i]).Some? ==> d.labels[i] == DeterminedLabel(d.rows[i]).value)
  }

  /** Row `i` and label `i` come from the same iteration: every row has four
      features and a 0/1 label, and that label is the one the deterministic
      rules give the row whenever they decide it. */
  lemma {:induction false} GenerateDataLabelsAgree(count: nat, draws: seq<real>)
    requires GenerateData(count, draws).Some?
    ensures LabelsAgree(GenerateData(count, draws).value)
    decreases count
  {
    if count > 0 {
      var s := DrawSample(draws).value;
      var rest := draws[s.used..];
      GenerateDataLabelsAgree(count - 1, rest);
      SampleFacts(draws);
    }
  }

  /** A run consumes four draws per row, plus one for each row the rules left
      to chance. */
  lemma {:induction false} GenerateDataUsage(count: nat, draws: seq<real>)
    requires GenerateData(count, draws).Some?
    ensures var d := GenerateData(count, draws).value;
      d.used == FeatureDraws * count + FallthroughCount(d.rows)
    decreases count
  {
    if count > 0 {
      var s := DrawSample(draws).value;
      var rest := draws[s.used..];
      GenerateDataUsage(count - 1, rest);
      SampleFacts(draws);
      var d := GenerateData(count, draws).value;
      assert d.rows[1..] == GenerateData(count - 1, rest).value.rows;
    }
  }

  /** With draws in [0, 1), every row is in range. */
  lemma {:induction false} GenerateDataRowsInRange(count: nat, draws: seq<real>)
    requires UnitDraws(draws)
    requires GenerateData(count, draws).Some?
    ensures forall i :: 0 <= i < count ==> RowInRange(GenerateData(count, draws).value.rows[i])
    decreases count
  {
    if count > 0 {
      var s := DrawSample(draws).value;
      var rest := draws[s.used..];
      assert UnitDraws(rest) by {
        forall k | 0 <= k < |rest| ensures 0.0 <= rest[k] < 1.0 {
          assert rest[k] == draws[s.used + k];
        }
      }
      GenerateDataRowsInRange(count - 1, rest);
      SampleFacts(draws);
    }
  }

  /** Five draws per requested sample always suffice. */
  lemma {:induction false} GenerateDataEnoughDraws(count: nat, draws: seq<real>)
    requires |draws| >= (FeatureDraws + 1) * count
    ensures GenerateData(count, draws).Some?
    decreases count
  {
    if count > 0 {
      var s := DrawSample(draws).value;
      GenerateDataEnoughDraws(count - 1, draws[s.used..]);
    }
  }

  /** What one sample contributes to the dataset's contract. */
  lemma SampleFacts(draws: seq<real>)
    requires DrawSample(draws).Some?
    ensures var s := DrawSample(draws).value;
      && s.used == FeatureDraws + (if RowFallsThrough(s.row) then 1 else 0)
      && (DeterminedLabel(s.row).Some? ==> s.isFraud == DeterminedLabel(s.row).value)
      && (UnitDraws(draws) ==> RowInRange(s.row))
  {
    NormalisationRoundTrip(DrawTransaction(draws));
    if UnitDraws(draws) {
      assert 0.0 <= draws[2] < 1.0;
    }
  }

  /** A dataset with one more sample appended, or `None` if there was none. */
  function Extend(d: Dataset, next: Option<Sample>): Option<Dataset>
  {
    match next
    case None => None
    case Some(s) => Some(Dataset(d.rows + [s.row], d.labels + [s.isFraud], d.used + s.used))
  }

  /** The base case of `GenerateDataSnoc`: the first sample of a run. */
  lemma GenerateDataSnocFirst(draws: seq<real>)
    ensures GenerateData(1, draws) == Extend(Dataset([], [], 0), DrawSample(draws))
  {
    match DrawSample(draws)
    case None =>
    case Some(s) =>
      assert GenerateData(0, draws[s.used..]) == Some(Dataset([], [], 0));
      assert [s.row] + [] == [] + [s.row];
      assert [s.isFraud] + [] == [] + [s.isFraud];
  }

  /** The inductive step of `GenerateDataSnoc`, given the claim for the run
      that starts after the first sample. */
  lemma GenerateDataSnocStep(n: nat, draws: seq<real>)
    requires n > 0
    requires GenerateData(n, draws).Some?
    requires var rest := draws[DrawSample(draws).value.used..];
      var d' := GenerateData(n - 1, rest).value;
      GenerateData(n, rest) == Extend(d', DrawSample(rest[d'.used..]))
    ensures var d := GenerateData(n, draws).value;
      GenerateData(n + 1, draws) == Extend(d, DrawSample(draws[d.used..]))
  {
    var s := DrawSample(draws).value;
    var rest := draws[s.used..];
    var d' := GenerateData(n - 1, rest).value;
    var d := GenerateData(n, draws).value;
    assert d == Prepend(s, d');
    assert rest[d'.used..] == draws[d.used..];
    var next := DrawSample(draws[d.used..]);
    assert GenerateData(n + 1, draws) == PrependTo(s, GenerateData(n, rest));
    PrependExtend(s, d', next);
  }

  /** Prepending a sample and appending one commute. */
  lemma PrependExtend(s: Sample, d: Dataset, next: Option<Sample>)
    ensures PrependTo(s, Extend(d, next)) == Extend(Prepend(s, d), next)
  {
    if next.Some? {
      var s' := next.value;
      assert [s.row] + (d.rows + [s'.row]) == ([s.row] + d.rows) + [s'.row];
      assert [s.isFraud] + (d.labels + [s'.isFraud]) == ([s.isFraud] + d.labels) + [s'.isFraud];
    }
  }

  /** The first `n` samples of a run are a run of their own: drawing one more
      sample appends it after them.  This is the loop of `generateData` seen
      one iteration at a time. */
  lemma {:induction false} GenerateDataSnoc(n: nat, draws: seq<real>)
    requires GenerateData(n, draws).Some?
    ensures var d := GenerateData(n, draws).value;
      GenerateData(n + 1, draws) == Extend(d, DrawSample(draws[d.used..]))
    decreases n
  {
    if n == 0 {
      assert draws[0..] == draws;
      GenerateDataSnocFirst(draws);
    } else {
      GenerateDataSnoc(n - 1, draws[DrawSample(draws).value.used..]);
      GenerateDataSnocStep(n, draws);
    }
  }

  /** Once the draws run out, asking for more samples cannot succeed. */
  lemma {:induction false} GenerateDataNoneStaysNone(n: nat, m: nat, draws: seq<real>)
    requires n <= m
    requires GenerateData(n, draws).None?
    ensures GenerateData(m, draws).None?
    decreases n
  {
    match DrawSample(draws)
    case None =>
    case Some(s) =>
      GenerateDataNoneStaysNone(n - 1, m - 1, draws[s.used..]);
  }

  /** The loop of `generateData`, iteration by iteration: push a row and a
      label per sample, consuming draws from the front. */
  method GenerateDataLoop(count: nat, draws: seq<real>) returns (r: Option<Dataset>)
    ensures r == GenerateData(count, draws)
  {
    var rows: seq<seq<real>> := [];
    var labels: seq<int> := [];
    var pos: nat := 0;
    var i: nat := 0;
    while i < count
      invariant i <= count
      invariant GenerateData(i, draws) == Some(Dataset(rows, labels, pos))
    {
      GenerateDataSnoc(i, draws);
      var next := DrawSample(draws[pos..]);
      if next.None? {
        GenerateDataNoneStaysNone(i + 1, count, draws);
        return None;
      }
      rows := rows + [next.value.row];
      labels := labels + [next.value.isFraud];
      pos := pos + next.value.used;
      i := i + 1;
    }
    return Some(Dataset(rows, labels, pos));
  }

  /** The training set and the independently drawn validation set, in the
      order `createAndTrainModel` draws them. */
  function SynthesizeSplits(draws: seq<real>): (r: Option<(Dataset, Dataset)>)
    ensures r.Some? ==> |r.value.0.rows| == TrainCount && |r.value.0.labels| == TrainCount
    ensures r.Some? ==> |r.value.1.rows| == ValidationCount && |r.value.1.labels| == ValidationCount
    ensures r.Some? ==> r.value.0.used + r.value.1.used <= |draws|
    ensures |draws| >= (FeatureDraws + 1) * NumSamples ==> r.Some?
  {
    SplitsHaveEnoughDraws(draws);
    match GenerateData(TrainCount, draws)
    case None => None
    case Some(train) =>
      match GenerateData(ValidationCount, draws[train.used..])
      case None => None
      case Some(validation) => Some((train, validation))
  }

  /** Five thousand draws always suffice for both splits. */
  lemma SplitsHaveEnoughDraws(draws: seq<real>)
    ensures |draws| >= (FeatureDraws + 1) * NumSamples ==>
      && GenerateData(TrainCount, draws).Some?
      && GenerateData(ValidationCount, draws[GenerateData(TrainCount, draws).value.used..]).Some?
  {
    if |draws| >= (FeatureDraws + 1) * NumSamples {
      GenerateDataEnoughDraws(TrainCount, draws);
      var train := GenerateData(TrainCount, draws).value;
      GenerateDataUsage(TrainCount, draws);
      GenerateDataEnoughDraws(ValidationCount, draws[train.used..]);
    }
  }

  /** An independent, order-free reading of the label chain: fraud exactly when
      rule 1 or rule 2 holds, or rule 3 fails and the fifth draw is below 0.05. */
  lemma LabelClosedForm(draws: seq<real>)
    requires |draws| > FeatureDraws
    ensures DrawSample(draws).Some?
    ensures var t := DrawTransaction(draws);
      DrawSample(draws).value.isFraud == Fraudulent <==>
        HighAmountRiskyTypeHolds(t) || HighAmountVeryRiskyHolds(t) ||
        (!LowRiskSmallAmountHolds(t) && draws[FeatureDraws] < RandomFraudRate)
  {
  }

  /** A sample decided by rules 1-3 reads only its four feature draws: whatever
      follows them is neither consulted nor consumed.  A corollary of
      `SampleIgnoresLaterDraws` for the case where no fifth draw exists. */
  lemma DecidedSampleIgnoresLaterDraws(draws: seq<real>, later: seq<real>)
    requires |draws| == FeatureDraws
    requires FirstRule(DrawTransaction(draws)) != RandomFallthrough
    ensures DrawSample(draws + later) == DrawSample(draws)
    ensures DrawSample(draws).Some? && DrawSample(draws).value.used == FeatureDraws
  {
    SampleIgnoresLaterDraws(draws, later);
  }

  /** A generator run reads its draws from the front only: extra draws appended
      after a successful run change nothing. */
  lemma {:induction false} GenerateDataIgnoresLaterDraws(count: nat, draws: seq<real>, later: seq<real>)
    requires GenerateData(count, draws).Some?
    ensures GenerateData(count, draws + later) == GenerateData(count, draws)
    decreases count
  {
    if count > 0 {
      var s := DrawSample(draws).value;
      SampleIgnoresLaterDraws(draws, later);
      assert (draws + later)[s.used..] == draws[s.used..] + later;
      GenerateDataIgnoresLaterDraws(count - 1, draws[s.used..], later);
    }
  }

  /** One sample reads its draws from the front only. */
  lemma SampleIgnoresLaterDraws(draws: seq<real>, later: seq<real>)
    requires DrawSample(draws).Some?
    ensures DrawSample(draws + later) == DrawSample(draws)
  {
  }
}
