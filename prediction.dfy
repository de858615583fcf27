/**
 * The `predict` route of app.py end to end, for a server whose label encoder was loaded: the
 * validation prefix, then the classifier's answer for the validated features, the main category
 * of the predicted label, and the detailed and grouped confidence. What scikit-learn computes is
 * not part of this model: it is the parameter `classifier`, a function of the features.
 */
module Prediction {
  import opened Wrappers
  import opened Categories
  import opened Validation
  import opened Grouping

  /** An exception raised by a call into the classifier: a ValueError, or any other kind. */
  datatype Raised = RaisedValueError(msg: string) | RaisedOther(msg: string)

  /** `model.predict_proba(features)` followed by the detailed-confidence comprehension: the
      `label -> probability` entries in the dictionary's iteration order, the AttributeError of a
      classifier without probabilities, or another exception. */
  datatype Probabilities = Detailed(items: seq<Item>) | NoPredictProba | ProbaRaised(e: Raised)

  /** `scaler.transform`, `model.predict` and `label_encoder.inverse_transform` on the features:
      the detailed label, and what the probabilities call gives, or the exception one of them raised. */
  datatype ClassifierOutcome = Predicted(detailedLabel: string, proba: Probabilities) | PredictRaised(e: Raised)

  /** The `confidence` object of the response. */
  datatype Confidence = Confidence(detailed: seq<Item>, grouped: map<string, real>)

  /** The JSON reply: a 200 with the prediction, the echoed input and the optional confidence,
      or an error response. */
  datatype Response =
    | Ok(prediction: string, input: Features, confidence: Option<Confidence>)
    | Error(error: ErrorResponse)
  {
    function Status(): int {
      match this
      case Ok(_, _, _) => 200
      case Error(e) => e.status
    }
  }

  /** The two outer exception handlers. */
  function Handle(e: Raised): ErrorResponse {
    match e
    case RaisedValueError(msg) => InvalidInput(msg)
    case RaisedOther(msg) => PredictionError(msg)
  }

  /** `str(KeyError(label))`: the label between single quotes. */
  function KeyErrorText(name: string): string {
    "'" + name + "'"
  }

  /** `predict()`: validation, the classifier's answer, the main category of the detailed label,
      and the grouped confidence, with every exception turned into its response. */
  method Predict(req: Request, classifier: Features -> ClassifierOutcome) returns (resp: Response)
    ensures Validate(req).Failure? ==> resp == Error(Validate(req).error)
    ensures Validate(req).Success? && classifier(Validate(req).value).PredictRaised? ==>
              resp == Error(Handle(classifier(Validate(req).value).e))
    ensures resp.Ok? ==>
              && Validate(req) == Success(resp.input)
              && classifier(resp.input).Predicted?
              && resp.prediction == MapToMainCategory(classifier(resp.input).detailedLabel)
    ensures resp.Ok? && resp.confidence.Some? ==>
              && classifier(resp.input).proba == Detailed(resp.confidence.value.detailed)
              && resp.confidence.value.grouped == Grouped(resp.confidence.value.detailed, MapToMainCategory)
              && resp.confidence.value.grouped.Keys == CategoryNames
    ensures resp.Ok? && resp.confidence.None? ==> classifier(resp.input).proba == NoPredictProba
    ensures resp.Error? && Validate(req).Success? && classifier(Validate(req).value).Predicted? ==>
              match classifier(Validate(req).value).proba
              case ProbaRaised(e) => resp.error == Handle(e)
              case Detailed(items) =>
                exists k :: 0 <= k < |items| && !HasBucket(MapToMainCategory, items[k].0)
                            && AllHaveBuckets(items[..k], MapToMainCategory)
                            && resp.error == PredictionError(KeyErrorText(items[k].0))
              case NoPredictProba => false
    ensures Validate(req).Success? && classifier(Validate(req).value).Predicted?
            && classifier(Validate(req).value).proba.Detailed?
            && AllHaveBuckets(classifier(Validate(req).value).proba.items, MapToMainCategory) ==>
              resp.Ok? && resp.confidence.Some?
    ensures resp.Ok? <==> resp.Status() == 200
    ensures resp.Status() == 200 || resp.Status() == 400 || resp.Status() == 500
  {
    match Validate(req)
    case Failure(e) =>
      return Error(e);
    case Success(features) =>
      match classifier(features)
      case PredictRaised(e) =>
        return Error(Handle(e));
      case Predicted(detailedLabel, proba) =>
        var predictionLabel := MapToMainCategory(detailedLabel);
        match proba
        case NoPredictProba =>
          return Ok(predictionLabel, features, None);
        case ProbaRaised(e) =>
          return Error(Handle(e));
        case Detailed(detailed) =>
          var grouped := GroupConfidence(detailed, MapToMainCategory);
          match grouped
          case Failure(key) =>
            ghost var k :| 0 <= k < |detailed| && key == MapToMainCategory(detailed[k].0)
                           && !HasBucket(MapToMainCategory, detailed[k].0)
                           && AllHaveBuckets(detailed[..k], MapToMainCategory);
            MapToMainCategoryRange(detailed[k].0);
            return Error(PredictionError(KeyErrorText(key)));
          case Success(g) =>
            return Ok(predictionLabel, features, Some(Confidence(detailed, g)));
  }

  /** A detailed label has a bucket exactly when one of the keywords classifies it: the labels
      that end the request with a KeyError are those `map_to_main_category` hands back unchanged. */
  lemma BucketedIffClassified(name: string)
    ensures HasBucket(MapToMainCategory, name) <==> Classify(name).Some?
    ensures !HasBucket(MapToMainCategory, name) ==> MapToMainCategory(name) == name
  {
    MapToMainCategoryRange(name);
  }
}
