/** The `POST /detect` handler: a readiness check on the model reference, a
    presence check on the four request fields, then a prediction on the
    normalised feature vector, echoed back with a 0.5 threshold verdict.

    The trained network is an opaque predictor from a feature vector to a
    real; a request body is four optional numbers (absent = `undefined`). */
module DetectHandler {
  import opened Optional
  import Synthesizer

  /** The model's `predict`, seen as a total function of the feature vector. */
  type Predictor = seq<real> -> real

  /** The destructured request body; `None` is a field that was not sent. */
  datatype Body = Body(
    amount: Option<real>,
    locationRisk: Option<real>,
    transactionType: Option<real>,
    timeOfDay: Option<real>)

  /** The names of the four required fields. */
  datatype Field = Amount | LocationRisk | TransactionType | TimeOfDay

  datatype Response =
    | Unavailable(text: string)
    | BadRequest(text: string)
    | Ok(
        amount: real,
        locationRisk: real,
        transactionType: real,
        timeOfDay: real,
        fraudProbability: real,
        isFraud: bool,
        message: string)
  {
    /** The HTTP status the response is sent with. */
    function Status(): (code: int)
      ensures code in {200, 400, 503}
    {
      match this
      case Unavailable(_) => 503
      case BadRequest(_) => 400
      case Ok(_, _, _, _, _, _, _) => 200
    }
  }

  const NotTrainedText: string := "Model not trained yet. Please wait."
  const MissingParametersText: string := "Missing transaction parameters."
  const FraudMessage: string := "Potential Fraudulent Transaction"
  const LegitimateMessage: string := "Legitimate Transaction"
  const FraudThreshold: real := 0.5

  function FieldValue(body: Body, f: Field): Option<real>
  {
    match f
    case Amount => body.amount
    case LocationRisk => body.locationRisk
    case TransactionType => body.transactionType
    case TimeOfDay => body.timeOfDay
  }

  /** The required fields the body lacks. */
  function MissingFields(body: Body): set<Field>
  {
    set f: Field | f in {Amount, LocationRisk, TransactionType, TimeOfDay} && FieldValue(body, f).None?
  }

  /** The handler's own test: any of the four fields `=== undefined`.  It
      rejects exactly the bodies that lack a required field. */
  predicate AnyUndefined(body: Body)
    ensures AnyUndefined(body) <==> MissingFields(body) != {}
  {
    assert body.amount.None? ==> Amount in MissingFields(body);
    assert body.locationRisk.None? ==> LocationRisk in MissingFields(body);
    assert body.transactionType.None? ==> TransactionType in MissingFields(body);
    assert body.timeOfDay.None? ==> TimeOfDay in MissingFields(body);
    body.amount.None? || body.locationRisk.None? || body.transactionType.None? || body.timeOfDay.None?
  }

  /** The vector handed to the predictor: the amount divided by 1000, the
      other fields as sent.  It is exactly the row the training data would
      hold for the same raw transaction, so serving normalises as training did. */
  function InputVector(amount: real, locationRisk: real, transactionType: real, timeOfDay: real): (v: seq<real>)
    ensures v == Synthesizer.FeatureRow(Synthesizer.Transaction(amount, locationRisk, transactionType, timeOfDay))
  {
    [amount / 1000.0, locationRisk, transactionType, timeOfDay]
  }

  /** The message selected by the verdict. */
  function VerdictMessage(isFraud: bool): (m: string)
    ensures m == FraudMessage <==> isFraud
    ensures m == LegitimateMessage <==> !isFraud
  {
    if isFraud then FraudMessage else LegitimateMessage
  }

  /** The `/detect` handler. */
  function Detect(model: Option<Predictor>, body: Body): (r: Response)
    // Readiness is checked first, whatever the body holds.
    ensures r.Status() == 503 <==> model.None?
    ensures r.Unavailable? ==> r.text == NotTrainedText
    // Then presence, and presence only: no type or range check.
    ensures r.Status() == 400 <==> model.Some? && MissingFields(body) != {}
    ensures r.BadRequest? ==> r.text == MissingParametersText
    ensures r.Status() == 200 <==> model.Some? && MissingFields(body) == {}
    ensures r.Ok? ==>
      && Some(r.amount) == body.amount
      && Some(r.locationRisk) == body.locationRisk
      && Some(r.transactionType) == body.transactionType
      && Some(r.timeOfDay) == body.timeOfDay
    ensures r.Ok? ==>
      r.fraudProbability == model.value(Synthesizer.FeatureRow(
        Synthesizer.Transaction(r.amount, r.locationRisk, r.transactionType, r.timeOfDay)))
    ensures r.Ok? ==> (r.isFraud <==> r.fraudProbability > 0.5)
    ensures r.Ok? ==> (r.message == FraudMessage <==> r.isFraud)
    ensures r.Ok? ==> (r.message == LegitimateMessage <==> !r.isFraud)
  {
    if model.None? then Unavailable(NotTrainedText)
    else if AnyUndefined(body) then BadRequest(MissingParametersText)
    else
      var amount := body.amount.value;
      var locationRisk := body.locationRisk.value;
      var transactionType := body.transactionType.value;
      var timeOfDay := body.timeOfDay.value;
      var p := model.value(InputVector(amount, locationRisk, transactionType, timeOfDay));
      var isFraud := p > FraudThreshold;
      Ok(amount, locationRisk, transactionType, timeOfDay, p, isFraud, VerdictMessage(isFraud))
  }

  /** The body a successful response echoes: the request can be rebuilt from it. */
  function EchoedBody(r: Response): Body
    requires r.Ok?
  {
    Body(Some(r.amount), Some(r.locationRisk), Some(r.transactionType), Some(r.timeOfDay))
  }

  /** A scored response gives back the request unchanged. */
  lemma EchoRoundTrip(model: Predictor, body: Body)
    requires MissingFields(body) == {}
    ensures Detect(Some(model), body).Ok?
    ensures EchoedBody(Detect(Some(model), body)) == body
  {
  }

  /** Where the model reference stands during start-up.  The reference is
      assigned when the network is built, before `fit` is awaited, so it is
      already set while training runs; `net` is the network with the weights
      it holds at that moment. */
  datatype Phase =
    | Listening               // the listening callback has not yet built the network
    | Fitting(net: Predictor) // the network is built and assigned; `fit` is in progress
    | Trained(net: Predictor) // `fit` has resolved

  /** What moves start-up along: the network is built and assigned to `model`;
      `fit` then rewrites that same object's weights in place, any number of
      times, and finally resolves with the trained weights. */
  datatype StartupEvent =
    | NetworkBuilt(built: Predictor)
    | WeightsUpdated(weights: Predictor)
    | FitResolved(trained: Predictor)

  /** One start-up step.  An event that does not apply in a phase leaves it
      unchanged: nothing in the script clears or rebuilds the model. */
  function Advance(phase: Phase, e: StartupEvent): (next: Phase)
    ensures phase.Listening? && e.NetworkBuilt? ==> next == Fitting(e.built)
    ensures phase.Fitting? && e.WeightsUpdated? ==> next == Fitting(e.weights)
    ensures phase.Fitting? && e.FitResolved? ==> next == Trained(e.trained)
    ensures !phase.Listening? ==> !next.Listening?
  {
    match (phase, e)
    case (Listening, NetworkBuilt(net)) => Fitting(net)
    case (Fitting(_), WeightsUpdated(net)) => Fitting(net)
    case (Fitting(_), FitResolved(net)) => Trained(net)
    case _ => phase
  }

  /** The phase reached after a sequence of start-up events. */
  function AfterEvents(phase: Phase, events: seq<StartupEvent>): Phase
    decreases |events|
  {
    if events == [] then phase
    else AfterEvents(Advance(phase, events[0]), events[1..])
  }

  /** The value of the module-level `model` variable in a phase. */
  function ModelReference(phase: Phase): (m: Option<Predictor>)
    ensures m.None? <==> phase.Listening?
  {
    match phase
    case Listening => None
    case Fitting(net) => Some(net)
    case Trained(net) => Some(net)
  }

  /** Once assigned, the model reference stays assigned through every later
      start-up step. */
  lemma {:induction false} ReferenceStaysSet(phase: Phase, events: seq<StartupEvent>)
    requires ModelReference(phase).Some?
    ensures ModelReference(AfterEvents(phase, events)).Some?
    decreases |events|
  {
    if events != [] {
      ReferenceStaysSet(Advance(phase, events[0]), events[1..]);
    }
  }

  /** From the start, the reference is unset exactly as long as no network has
      been built. */
  lemma {:induction false} UnsetUntilBuilt(events: seq<StartupEvent>)
    ensures ModelReference(AfterEvents(Listening, events)).None? <==>
      forall i :: 0 <= i < |events| ==> !events[i].NetworkBuilt?
    decreases |events|
  {
    if events != [] {
      var next := Advance(Listening, events[0]);
      if events[0].NetworkBuilt? {
        ReferenceStaysSet(next, events[1..]);
      } else {
        assert next == Listening;
        UnsetUntilBuilt(events[1..]);
        assert forall i :: 1 <= i < |events| ==> events[i] == events[1..][i - 1];
      }
    }
  }

  /** While `fit` runs, the `model` variable always holds the network with the
      weights of the latest update, so a request is scored by the partly
      trained network and not by the network as first built. */
  lemma {:induction false} LatestWeightsServe(net: Predictor, updates: seq<StartupEvent>)
    requires forall i :: 0 <= i < |updates| ==> updates[i].WeightsUpdated?
    ensures AfterEvents(Fitting(net), updates) ==
      Fitting(if updates == [] then net else updates[|updates| - 1].weights)
    decreases |updates|
  {
    if updates != [] {
      LatestWeightsServe(updates[0].weights, updates[1..]);
      if |updates| > 1 {
        assert updates[1..][|updates[1..]| - 1] == updates[|updates| - 1];
      }
    }
  }

  /** Start-up as the script runs it: the listening callback builds and
      assigns the network synchronously, before its first `await`, so any
      request is dispatched after `NetworkBuilt`.  Whatever follows, no such
      request is answered 503, and a complete one is scored. */
  lemma NoUnavailableAfterListenCallback(net: Predictor, later: seq<StartupEvent>, body: Body)
    ensures !Detect(ModelReference(AfterEvents(Listening, [NetworkBuilt(net)] + later)), body).Unavailable?
    ensures MissingFields(body) == {} ==>
      Detect(ModelReference(AfterEvents(Listening, [NetworkBuilt(net)] + later)), body).Ok?
  {
    var events := [NetworkBuilt(net)] + later;
    assert events[1..] == later;
    ReferenceStaysSet(Fitting(net), later);
  }

  /** Only the phase before the network is built answers 503; a complete
      request that arrives while `fit` runs is scored by the network being
      trained. */
  lemma UnavailableOnlyBeforeConstruction(phase: Phase, body: Body)
    ensures Detect(ModelReference(phase), body).Unavailable? <==> phase.Listening?
    ensures phase.Fitting? && MissingFields(body) == {} ==>
      Detect(ModelReference(phase), body).Ok? &&
      Detect(ModelReference(phase), body).fraudProbability ==
        phase.net(InputVector(body.amount.value, body.locationRisk.value, body.transactionType.value, body.timeOfDay.value))
  {
  }
}
