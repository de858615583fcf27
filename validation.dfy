/**
 * The checks at the start of `predict` in app.py, up to the point where the three features are
 * handed to the classifier: a fixed chain of early returns, each giving an error message and an
 * HTTP status, and the two exception handlers that turn a failed conversion into a response.
 */
module Validation {
  import opened Wrappers

  /** A Python float as far as the range checks can tell: NaN and the infinities compare with
      `<=` as IEEE 754 says, so `NaN <= 0` and `inf <= 0` are both false. */
  datatype Float = Finite(x: real) | PosInf | NegInf | NaN

  /** Python's `f <= 0`. */
  predicate AtMostZero(f: Float) {
    match f
    case Finite(x) => x <= 0.0
    case NegInf => true
    case PosInf => false
    case NaN => false
  }

  /** What `float(v)` does with the JSON value `v` of a field: a number, a ValueError (a string
      that is not a number) or another exception (a TypeError, for `null`, a list or an object);
      `msg` is the exception's text. */
  datatype Conversion = Converted(value: Float) | ValueError(msg: string) | OtherError(msg: string)

  /** The outcome of `request.get_json()`: it raised, it gave `None`, or it gave a JSON object,
      here with each field's value given by what `float` makes of it. */
  datatype Body = Unreadable(msg: string) | NoJson | Object(fields: map<string, Conversion>)

  /** What the handler sees of one request: whether the model file was loaded at start-up, and the body. */
  datatype Request = Request(modelLoaded: bool, body: Body)

  /** An error response: the `error` message of the JSON body and the HTTP status. */
  datatype ErrorResponse = ErrorResponse(message: string, status: int)

  /** The three validated features, in the order the classifier takes them. */
  datatype Features = Features(orbitalPeriod: Float, transitDuration: Float, planetaryRadius: Float)

  const OrbitalPeriod := "orbital_period"
  const TransitDuration := "transit_duration"
  const PlanetaryRadius := "planetary_radius"

  /** `required_fields`, in the order they are checked. */
  const RequiredFields: seq<string> := [OrbitalPeriod, TransitDuration, PlanetaryRadius]

  /** The message naming each field that is not positive, in the same order. */
  const NotPositiveMessages: seq<string> :=
    ["Orbital period must be positive", "Transit duration must be positive", "Planetary radius must be positive"]

  const ModelNotLoaded := ErrorResponse("Model not loaded. Please ensure model.pkl exists.", 500)
  const NoData := ErrorResponse("No data provided", 400)

  function MissingField(field: string): ErrorResponse {
    ErrorResponse("Missing required field: " + field, 400)
  }

  /** The `except ValueError` handler. */
  function InvalidInput(msg: string): ErrorResponse {
    ErrorResponse("Invalid input value: " + msg, 400)
  }

  /** The `except Exception` handler. */
  function PredictionError(msg: string): ErrorResponse {
    ErrorResponse("Prediction error: " + msg, 500)
  }

  /** The loop over `required_fields`: the position of the first one absent from the body. */
  function FirstMissing(fields: seq<string>, data: map<string, Conversion>): (r: Option<nat>)
    ensures r.None? <==> forall i :: 0 <= i < |fields| ==> fields[i] in data
    ensures r.Some? ==> r.value < |fields| && fields[r.value] !in data
                        && forall i :: 0 <= i < r.value ==> fields[i] in data
  {
    if fields == [] then None
    else if fields[0] !in data then Some(0)
    else match FirstMissing(fields[1..], data)
      case None =>
        assert forall i :: 1 <= i < |fields| ==> fields[i] == fields[1..][i - 1];
        None
      case Some(k) =>
        assert forall i :: 1 <= i <= k ==> fields[i] == fields[1..][i - 1];
        Some(k + 1)
  }

  /** `float(data[field])`, with the handler its exception would reach. */
  function ToFloat(c: Conversion): Result<Float, ErrorResponse> {
    match c
    case Converted(f) => Success(f)
    case ValueError(msg) => Failure(InvalidInput(msg))
    case OtherError(msg) => Failure(PredictionError(msg))
  }

  /** The validation prefix of `predict`: the features, or the response the handler returns. */
  function Validate(req: Request): Result<Features, ErrorResponse> {
    if !req.modelLoaded then Failure(ModelNotLoaded)
    else match req.body
      case Unreadable(msg) => Failure(PredictionError(msg))
      case NoJson => Failure(NoData)
      case Object(data) =>
        if |data| == 0 then Failure(NoData)
        else match FirstMissing(RequiredFields, data)
          case Some(k) => Failure(MissingField(RequiredFields[k]))
          case None =>
            assert RequiredFields[1] in data && RequiredFields[2] in data;
            var orbital :- ToFloat(data[OrbitalPeriod]);
            var transit :- ToFloat(data[TransitDuration]);
            var radius :- ToFloat(data[PlanetaryRadius]);
            if AtMostZero(orbital) then Failure(ErrorResponse(NotPositiveMessages[0], 400))
            else if AtMostZero(transit) then Failure(ErrorResponse(NotPositiveMessages[1], 400))
            else if AtMostZero(radius) then Failure(ErrorResponse(NotPositiveMessages[2], 400))
            else Success(Features(orbital, transit, radius))
  }

  /** Whether the body is a JSON object holding all three required fields. */
  predicate HasAllFields(req: Request) {
    req.body.Object? && forall i :: 0 <= i < |RequiredFields| ==> RequiredFields[i] in req.body.fields
  }

  /** What `float` makes of the `i`-th required field. */
  function FieldConversion(req: Request, i: nat): Conversion
    requires HasAllFields(req) && i < |RequiredFields|
  {
    req.body.fields[RequiredFields[i]]
  }

  /** With all fields present, the missing-field loop finds nothing and the body is not empty. */
  lemma AllFieldsPresent(req: Request)
    requires HasAllFields(req)
    ensures var data := req.body.fields;
            OrbitalPeriod in data && TransitDuration in data && PlanetaryRadius in data
            && |data| > 0 && FirstMissing(RequiredFields, data).None?
            && FieldConversion(req, 0) == data[OrbitalPeriod]
            && FieldConversion(req, 1) == data[TransitDuration]
            && FieldConversion(req, 2) == data[PlanetaryRadius]
  {
    assert RequiredFields[0] in req.body.fields;
    assert RequiredFields[1] in req.body.fields;
    assert RequiredFields[2] in req.body.fields;
  }

  /** A missing model is reported before anything about the request is looked at. */
  lemma ModelCheckedFirst(req: Request)
    requires !req.modelLoaded
    ensures Validate(req) == Failure(ErrorResponse("Model not loaded. Please ensure model.pkl exists.", 500))
  {
  }

  /** A `null` body or an empty object is "No data provided", whatever else holds. */
  lemma EmptyBodyRejected(req: Request)
    requires req.modelLoaded
    requires req.body == NoJson || req.body == Object(map[])
    ensures Validate(req) == Failure(ErrorResponse("No data provided", 400))
  {
  }

  /** The first required field absent from the body, in the fixed order, is the one named. */
  lemma FirstMissingFieldNamed(req: Request, k: nat)
    requires req.modelLoaded && req.body.Object? && req.body.fields != map[]
    requires k < |RequiredFields| && RequiredFields[k] !in req.body.fields
    requires forall j :: 0 <= j < k ==> RequiredFields[j] in req.body.fields
    ensures Validate(req) == Failure(ErrorResponse("Missing required field: " + RequiredFields[k], 400))
  {
    var r := FirstMissing(RequiredFields, req.body.fields);
    assert r.Some? && r.value == k;
  }

  /** Once every field is present, the first one `float` rejects decides the response: a
      ValueError gives 400 "Invalid input value: ...", any other exception 500 "Prediction error: ...". */
  lemma FirstConversionFailureReported(req: Request, k: nat)
    requires req.modelLoaded && HasAllFields(req)
    requires k < |RequiredFields| && !FieldConversion(req, k).Converted?
    requires forall j :: 0 <= j < k ==> FieldConversion(req, j).Converted?
    ensures FieldConversion(req, k).ValueError? ==>
              Validate(req) == Failure(ErrorResponse("Invalid input value: " + FieldConversion(req, k).msg, 400))
    ensures FieldConversion(req, k).OtherError? ==>
              Validate(req) == Failure(ErrorResponse("Prediction error: " + FieldConversion(req, k).msg, 500))
  {
    AllFieldsPresent(req);
  }

  /** Once every field converts, the first one that is `<= 0` is named, in the same order. */
  lemma FirstNonPositiveFieldNamed(req: Request, k: nat)
    requires req.modelLoaded && HasAllFields(req)
    requires forall j :: 0 <= j < |RequiredFields| ==> FieldConversion(req, j).Converted?
    requires k < |RequiredFields| && AtMostZero(FieldConversion(req, k).value)
    requires forall j :: 0 <= j < k ==> !AtMostZero(FieldConversion(req, j).value)
    ensures Validate(req) == Failure(ErrorResponse(NotPositiveMessages[k], 400))
  {
    AllFieldsPresent(req);
  }

  /** Validation succeeds exactly when the model is loaded, the body holds all three fields, each
      converts, and none is `<= 0`; the features are then the converted values, in order. */
  lemma ValidateSucceedsIff(req: Request)
    ensures Validate(req).Success? <==>
              req.modelLoaded && HasAllFields(req)
              && (forall j :: 0 <= j < |RequiredFields| ==> FieldConversion(req, j).Converted?)
              && (forall j :: 0 <= j < |RequiredFields| ==> !AtMostZero(FieldConversion(req, j).value))
    ensures Validate(req).Success? ==>
              Validate(req).value == Features(FieldConversion(req, 0).value, FieldConversion(req, 1).value,
                                               FieldConversion(req, 2).value)
  {
    if req.modelLoaded && HasAllFields(req) {
      AllFieldsPresent(req);
    }
    if Validate(req).Success? {
      assert FirstMissing(RequiredFields, req.body.fields).None?;
      AllFieldsPresent(req);
    }
  }

  /** Every rejection is a 400 or a 500, and a 500 comes only from a missing model or from an
      exception other than a ValueError. */
  lemma RejectionStatus(req: Request)
    requires Validate(req).Failure?
    ensures Validate(req).error.status == 400 || Validate(req).error.status == 500
    ensures Validate(req).error.status == 500 ==>
              !req.modelLoaded || req.body.Unreadable?
              || (HasAllFields(req) && exists j :: 0 <= j < |RequiredFields| && FieldConversion(req, j).OtherError?)
  {
    if req.modelLoaded && req.body.Object? && req.body.fields != map[]
       && FirstMissing(RequiredFields, req.body.fields).None? {
      var data := req.body.fields;
      assert HasAllFields(req);
      AllFieldsPresent(req);
      if data[OrbitalPeriod].OtherError? {
        assert FieldConversion(req, 0).OtherError?;
      } else if data[TransitDuration].OtherError? {
        assert FieldConversion(req, 1).OtherError?;
      } else if data[PlanetaryRadius].OtherError? {
        assert FieldConversion(req, 2).OtherError?;
      }
    }
  }

  /** The range checks are `<= 0` comparisons, which NaN and +infinity do not satisfy: such
      values pass validation. */
  lemma NonFiniteValuesPass(req: Request)
    requires req.modelLoaded
    requires req.body == Object(map[OrbitalPeriod := Converted(NaN), TransitDuration := Converted(PosInf),
                                    PlanetaryRadius := Converted(NaN)])
    ensures Validate(req) == Success(Features(NaN, PosInf, NaN))
  {
    assert RequiredFields[0] in req.body.fields;
  }
}
