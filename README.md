# Smart Loan Predictor: the `/predict` handler

This project models the part of the Smart Loan Predictor service that has logic of its
own: the body of the `/predict` handler in `app/main.py`. The handler:

1. refuses every request with status 500 and detail "Models not loaded" when either
   the classifier or the preprocessor failed to load;
2. encodes the applicant's record into a fixed 12-slot feature vector
   `[gender, age, 0, education, 0, emp_exp, income, home_ownership, credit_score,
   defaults, loan_amnt, intent]`. It uses five constant lookup tables read with
   `.get(key, 0)`. Only the gender is lower-cased before its lookup. Every unknown
   categorical value silently reads as code 0;
3. passes the vector through the fitted scaler and classifier, and answers "Approved"
   exactly when the predicted class is 1, otherwise "Rejected", together with
   column 1 of the classifier's probability row (the probability of its second class,
   which is class 1 when the classes are [0, 1]).

Modules:

- `Text` (`text.dfy`): ASCII `str.lower()`.
- `Encoding` (`encoding.dfy`): the request record, the tables, the per-field codes
  and `Encode`. It also holds two ghost functions used only in the proofs. `CanonicalInput`
  picks one representative for all inputs the encoder cannot tell apart. The ghost
  `Decode` reads a well-formed vector back into an input. Together they characterise
  the encoder: `Decode(Encode(x)) == CanonicalInput(x)`, `Encode(Decode(v)) == v`
  for every well-formed `v`, and `Encode(x) == Encode(y)` exactly when
  `CanonicalInput(x) == CanonicalInput(y)`.
- `Predict` (`predict.dfy`): the loaded artifacts as `Option`s, the scaler and
  classifier as opaque total functions, the guard, the label mapping and the
  response. Every property about the decision holds for any scaler and any classifier.

## Model

| member | source | states |
|---|---|---|
| `Text.LowerChar` | app/main.py:45 | the result is never an upper-case ASCII letter; it differs from the input exactly when the input is one, and then it is the matching lower-case letter |
| `Text.ToLower` | app/main.py:45 | `person_gender.lower()` keeps the length and lower-cases each character in place |
| `Text.ToLowerFixesLower` | app/main.py:45 | a string without upper-case letters is its own lower-case form |
| `Text.ToLowerIdempotent` | app/main.py:45 | lower-casing leaves no upper-case letter, and lower-casing twice is lower-casing once |
| `Text.ToLowerIs` | app/main.py:45 | `t` is the lower-case form of `s` if and only if it has the same length and each of its characters is the lower-cased character of `s` |
| `Encoding.GenderTableIsEnumeration` | app/main.py:38 | `GENDER_MAP` numbers its two keys 0 and 1, one key per code |
| `Encoding.EducationTableIsEnumeration` | app/main.py:39 | `EDUCATION_MAP` numbers its four keys 0..3, one key per code |
| `Encoding.HomeOwnershipTableIsEnumeration` | app/main.py:40 | `HOME_OWNERSHIP_MAP` numbers its three keys 0..2, one key per code |
| `Encoding.LoanIntentTableIsEnumeration` | app/main.py:41 | `LOAN_INTENT_MAP` numbers its five keys 0..4, one key per code |
| `Encoding.DefaultsTableIsEnumeration` | app/main.py:42 | `DEFAULTS_MAP` numbers its two keys 0 and 1, one key per code |
| `Encoding.TablesAreEnumerations` | app/main.py:38-42 | all five tables are one-to-one numberings from 0, so distinct known keys get distinct codes |
| `Encoding.Get` | app/main.py:45-56 | `dict.get(key, 0)`: a key the table knows reads its code; any other key reads 0 |
| `Encoding.GenderCode` | app/main.py:45 | the gender code is 0 or 1, and it is 1 if and only if the lower-cased gender is "female" |
| `Encoding.EducationCode` | app/main.py:48 | the education code lies in 0..3; it is 0 if and only if the value is "High School" or not an exact key of the table |
| `Encoding.HomeOwnershipCode` | app/main.py:52 | the home-ownership code lies in 0..2; it is 0 if and only if the value is "RENT" or not an exact key |
| `Encoding.DefaultsCode` | app/main.py:54 | the defaults code is 0 or 1, and it is 1 if and only if the value is exactly "YES" |
| `Encoding.LoanIntentCode` | app/main.py:56 | the intent code lies in 0..4; it is 0 if and only if the value is "PERSONAL" or not an exact key |
| `Encoding.Encode` | app/main.py:44-57 | the vector has exactly 12 slots, slots 2 and 4 are 0, each categorical slot holds a code in its table's range, and the integer fields land on whole numbers |
| `Encoding.DecodeCode` | app/main.py:45-56 | for a table numbered from 0, the code `.get(key, 0)` returns stands for the key itself when the table knows it, and for the code-0 key otherwise |
| `Encoding.EncodeKey` | app/main.py:38-42 | looking up the key a code stands for gives the code back |
| `Encoding.DecodeEncode` | app/main.py:44-57 | decoding the vector of any input gives that input with the gender lower-cased and every unknown categorical value replaced by its table's code-0 key |
| `Encoding.EncodeDecode` | app/main.py:44-57 | every well-formed 12-slot vector is the encoding of some input |
| `Encoding.EncodeCanonical` | app/main.py:44-57 | an input and its canonical form encode to the same vector |
| `Encoding.EncodeEqualIff` | app/main.py:44-57 | two inputs encode alike if and only if their canonical forms are equal, so the encoder forgets gender case and which unknown value was sent, and nothing else |
| `Encoding.GenderCaseInsensitive` | app/main.py:45 | gender strings with the same lower-case form get the same code |
| `Encoding.GenderFemaleIff` | app/main.py:38-45 | the gender code is 1 if and only if the string is "female" in some mix of letter case |
| `Encoding.NumericFieldsCopied` | app/main.py:46-55 | slot 1 holds the age, slot 5 the experience, slot 6 the income, slot 8 the credit score and slot 10 the loan amount, each unchanged; decoding the vector gives these fields back |
| `Encoding.LookupExamples` | app/main.py:38-56 | "Male", "MALE" and "male" encode to 0 and "Female" and "FEMALE" to 1; "bachelor" encodes to 0, unlike "Bachelor"; "UNKNOWN_VALUE" as intent encodes like "PERSONAL"; "own" and "yes" encode to 0 |
| `Encoding.SampleApplicant` | app/main.py:44-57 | (female, 30, Master, 5, 60000, OWN, 720, NO, 10000, EDUCATION) encodes to [1, 30, 0, 2, 0, 5, 60000, 1, 720, 0, 10000, 1] |
| `Predict.Label` | app/main.py:65 | the label is "Approved" or "Rejected", and it is "Approved" if and only if the predicted class is 1 |
| `Predict.Predict` | app/main.py:32-67 | the handler fails with 500 "Models not loaded" exactly when an artifact is missing; otherwise the label is "Approved" or "Rejected", "Approved" if and only if the classifier maps the scaled encoding to class 1, and the probability is column 1 of the classifier's probability row for that encoding |
| `Predict.MissingModelsFailEveryRequest` | app/main.py:34-35 | with either artifact missing, every input and every other artifact get the same 500 "Models not loaded" response |
| `Predict.PredictCanonical` | app/main.py:44-65 | for every scaler and classifier, the response for an input equals the response for its canonical form |
| `Predict.PredictSameCanonical` | app/main.py:44-65 | inputs with the same canonical form get the same response from every scaler and classifier |
| `Predict.PredictGenderCaseInsensitive` | app/main.py:45-65 | changing only the letter case of the gender never changes the response |

## Left out

- The FastAPI application, the CORS middleware, the static-file mount and the `/` redirect (app/main.py:11-29): framework configuration with no logic.
- `load_models()` (app/main.py:7, 14): disk I/O and deserialisation. `app/model_loader.py` is not part of this model. Only its outcome is modelled, as an `Option` for each artifact.
- `preprocessor.transform`, `model.predict` and `model.predict_proba` (app/main.py:59-62): fitted scikit-learn objects, modelled as opaque total functions on one row. Apart from always returning, nothing is assumed about them: not even that the probability lies in [0, 1].
- Exceptions raised inside those calls are not modelled, because the model assumes the calls return. This includes the `IndexError` from `[0][1]` (app/main.py:62) when `predict_proba` has fewer than two columns. In the service any of them escapes the handler as a 500 response other than "Models not loaded".
- Predict.Predict: the probability is column 1 of `predict_proba` (app/main.py:62), an opaque value. The model does not relate it to the predicted class or to class 1: it is the probability of class 1 only when the classifier's classes are [0, 1].
- Predict.Predict: the probability is the classifier's value unrounded. `round(float(probability), 3)` (app/main.py:66) is floating-point behaviour.
- Encoding.Encode: the vector holds exact reals. The `np.float64` conversion (app/main.py:57) is not modelled, so very large integers or incomes are not rounded as doubles would round them.
- The `LoanInput` schema and its 422 validation path: `app/schemas.py` is not part of this model. The handler only places these fields into a float64 array (app/main.py:46-55) and does not fix their types.
- Encoding.Encode: taking age, experience and credit score as integers and income and loan amount as reals is a choice of this model, not something the handler fixes. The clause that the integer slots hold whole numbers (`IsIntegral` in `IsFeatureVector`), and the ghost `Decode` that reads them back with `Floor`, depend on that choice.
- Text.ToLower: only ASCII letters are lower-cased. Python's `str.lower()` also maps non-ASCII letters.
- The response is modelled as the returned dictionary or the raised `HTTPException`, without JSON serialisation.
