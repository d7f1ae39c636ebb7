/**
 * The `/predict` handler: the missing-model guard, the encoding, the
 * fitted scaler and classifier (taken as opaque functions), and the
 * mapping of the predicted class to a decision label.
 */
module Predict {
  import opened Text
  import opened Encoding

  /** Python's `None` for an artifact that failed to load. */
  datatype Option<T> = None | Some(value: T)

  /** The fitted scaler: `preprocessor.transform` on one row. */
  datatype Preprocessor = Preprocessor(transform: seq<real> -> seq<real>)

  /**
   * The fitted classifier: `model.predict` on one row, and entry 1 of
   * `model.predict_proba` on that row (the probability of the classifier's
   * second class).
   */
  datatype Classifier = Classifier(predictClass: seq<real> -> int, probabilityColumn1: seq<real> -> real)

  /** The JSON body on success, or the raised `HTTPException`. */
  datatype Response =
    | Prediction(prediction: string, probability: real)
    | HttpError(statusCode: int, detail: string)

  /** The decision shown to the applicant. */
  function Label(predicted: int): (decision: string)
    ensures decision == "Approved" || decision == "Rejected"
    ensures decision == "Approved" <==> predicted == 1
  {
    if predicted == 1 then "Approved" else "Rejected"
  }

  /** The body of `predict(data)`, given the two loaded artifacts. */
  function Predict(model: Option<Classifier>, preprocessor: Option<Preprocessor>, data: LoanInput): (r: Response)
    ensures r.HttpError? <==> model.None? || preprocessor.None?
    ensures r.HttpError? ==> r.statusCode == 500 && r.detail == "Models not loaded"
    ensures r.Prediction? ==> r.prediction == "Approved" || r.prediction == "Rejected"
    ensures r.Prediction? ==>
      (r.prediction == "Approved" <==> model.value.predictClass(preprocessor.value.transform(Encode(data))) == 1)
    ensures r.Prediction? ==>
      r.probability == model.value.probabilityColumn1(preprocessor.value.transform(Encode(data)))
  {
    if model.None? || preprocessor.None? then
      HttpError(500, "Models not loaded")
    else
      var scaled := preprocessor.value.transform(Encode(data));
      Prediction(Label(model.value.predictClass(scaled)), model.value.probabilityColumn1(scaled))
  }

  /**
   * With either artifact missing every request gets the same error,
   * whatever the input and whatever the other artifact is: nothing is
   * encoded or classified.
   */
  lemma MissingModelsFailEveryRequest(
    model: Option<Classifier>, preprocessor: Option<Preprocessor>,
    model': Option<Classifier>, preprocessor': Option<Preprocessor>,
    data: LoanInput, data': LoanInput)
    requires model.None? || preprocessor.None?
    requires model'.None? || preprocessor'.None?
    ensures Predict(model, preprocessor, data) == Predict(model', preprocessor', data')
    ensures Predict(model, preprocessor, data) == HttpError(500, "Models not loaded")
  {
  }

  /**
   * The response depends on the input only through its canonical form, so
   * an unknown categorical value gets the same decision as the table's
   * code-0 key, for every scaler and classifier.
   */
  lemma PredictCanonical(model: Option<Classifier>, preprocessor: Option<Preprocessor>, data: LoanInput)
    ensures Predict(model, preprocessor, CanonicalInput(data)) == Predict(model, preprocessor, data)
  {
    EncodeCanonical(data);
  }

  /** Two inputs the encoder cannot tell apart get the same response from every scaler and classifier. */
  lemma PredictSameCanonical(model: Option<Classifier>, preprocessor: Option<Preprocessor>, x: LoanInput, y: LoanInput)
    requires CanonicalInput(x) == CanonicalInput(y)
    ensures Predict(model, preprocessor, x) == Predict(model, preprocessor, y)
  {
    EncodeEqualIff(x, y);
  }

  /** Changing only the letter case of the gender never changes the response. */
  lemma PredictGenderCaseInsensitive(
    model: Option<Classifier>, preprocessor: Option<Preprocessor>, data: LoanInput, gender: string)
    requires ToLower(gender) == ToLower(data.personGender)
    ensures Predict(model, preprocessor, data.(personGender := gender)) == Predict(model, preprocessor, data)
  {
    GenderCaseInsensitive(gender, data.personGender);
  }
}
