# Exoplanet classifier backend: decision logic of `app.py`

This project models the decision logic of the Flask backend of the exoplanet classifier. It
covers three parts:

- `map_to_main_category`, which groups the fine-grained labels of the trained classifier
  (CONFIRMED, CANDIDATE, APC, FALSE POSITIVE, REFUTED, ...) into three main categories:
  "Confirmed Planet", "Candidate Planet" and "False Positive (Not a Planet)".
- The validation prefix of the `/predict` route. It is a fixed chain of early returns: the
  model is missing; there is no body; a required field is missing; a field does not convert
  to a float; a field is not positive. The two exception handlers turn failed conversions into
  400 and 500 responses.
- The grouped confidence. It is a loop that adds each detailed `label -> probability` entry
  into one of three buckets seeded with 0. A label that names no bucket raises a KeyError,
  which ends the request with a 500.

Modules, one file each:

- `Wrappers` (`wrappers.dfy`): `Option` and `Result`.
- `Text` (`text.dfy`): Python's `in` on strings, `str.upper()` and `str.strip()`, with lemmas
  stating what each computes.
- `Categories` (`categories.dfy`): `map_to_main_category`, its keyword priority, its range and
  idempotence.
- `Validation` (`validation.dfy`): the validation prefix of `predict` as a function to a
  `Result` of the three features or an error response.
- `Grouping` (`grouping.dfy`): the grouped-confidence loop as a method, proved against the
  function `Grouped`. The label-to-bucket mapping is a parameter `bucketOf`; the route passes
  `map_to_main_category`.
- `Prediction` (`prediction.dfy`): the `predict` route end to end. It composes the three parts
  above with the classifier's outcome, which is given as a function of the validated features.

Probabilities are `real`, and `float()` is an input outcome: a `Float`, which may be NaN or an
infinity, or the exception it raised. scikit-learn's answer is likewise an input.

## Model

| member | source | states |
|---|---|---|
| Text.ContainsIff | app.py:45 | Python's `sub in s` holds exactly when `sub` occurs as a contiguous slice of `s` |
| Text.UpperChar | app.py:42 | a lower-case ASCII letter becomes its upper-case form; every other character is kept |
| Text.ToUpperChars | app.py:42 | `upper()` keeps the length and upper-cases character by character |
| Text.ToUpperIs | app.py:42 | a string that agrees character by character with the upper-cased input is `upper()` of it |
| Text.LeadingSpacesSpec | app.py:42 | the leading run `strip()` drops is all whitespace and is followed by a non-space |
| Text.TrailingStartSpec | app.py:42 | the trailing run `strip()` drops is all whitespace and is preceded by a non-space |
| Text.StripSpec | app.py:42 | `strip()` returns a slice of the input outside which there is only whitespace, and the slice neither starts nor ends with whitespace |
| Text.StripKeepsTrimmed | app.py:42 | `strip()` leaves a string that neither starts nor ends with whitespace unchanged |
| Text.ContainsTrimmedSlice | app.py:42-45 | a word without whitespace occurs in a string exactly when it occurs in the slice that remains after dropping surrounding whitespace |
| Text.ContainsStrip | app.py:42-45 | a word without whitespace occurs in `s.strip()` exactly when it occurs in `s` |
| Categories.AnyInIff | app.py:49 | `any(keyword in text for keyword in keywords)` holds exactly when some keyword of the list occurs in the text |
| Categories.KeywordLists | app.py:45-53 | the three keyword tests, written out: CONFIRMED; CANDIDATE, APC, CP or KP; FALSE, FA, REFUTED or NOT |
| Categories.FirstMatchWins | app.py:42-57 | on the upper-cased, stripped label: CONFIRMED gives "Confirmed Planet" whatever else occurs; otherwise a candidate keyword gives "Candidate Planet" even if a false-positive keyword also occurs; otherwise a false-positive keyword gives "False Positive (Not a Planet)"; with no keyword the label comes back exactly as given |
| Categories.NormalizeName | app.py:42 | each category name upper-cases and strips to its capitalised form |
| Categories.ClassifyName | app.py:35-57 | each category name is classified as its own category |
| Categories.FallbackIsNotACategoryName | app.py:57 | a label that no keyword classifies is never one of the three category names |
| Categories.MapToMainCategoryRange | app.py:35-57 | the result is a category name exactly when a keyword occurred; otherwise it is the label itself |
| Categories.MapToMainCategoryIdempotent | app.py:35-57 | applying `map_to_main_category` twice gives the same as applying it once |
| Categories.ClassifyIgnoresCase | app.py:42 | labels that upper-case alike fall into the same category |
| Categories.KeywordsSpaceFree | app.py:45-53 | no keyword is empty or holds whitespace |
| Categories.AnyInStrip | app.py:42-53 | stripping never changes whether a list of space-free keywords occurs |
| Categories.StripDoesNotAffectCategory | app.py:42 | the category of a label depends only on its upper-cased form, not on the surrounding whitespace that `strip()` removes |
| Categories.CandidateBeatsNegation | app.py:49-54 | "NOT A CANDIDATE" maps to "Candidate Planet": the candidate test comes before the NOT test |
| Categories.ConfirmedMatchesInsideWords | app.py:42-46 | "unconfirmed" maps to "Confirmed Planet": keywords match inside words and regardless of case |
| Categories.UnclassifiedLabelUnchanged | app.py:57 | " Unknown " comes back as " Unknown ", neither upper-cased nor stripped |
| Validation.FirstMissing | app.py:145-148 | the position of the first required field absent from the body, or none exactly when all are present |
| Validation.AllFieldsPresent | app.py:142-148 | with all three fields present, the body is non-empty and the missing-field loop finds nothing |
| Validation.ModelCheckedFirst | app.py:133-136 | a missing model is a 500 "Model not loaded. Please ensure model.pkl exists.", whatever the request |
| Validation.EmptyBodyRejected | app.py:139-143 | a `null` body or an empty object is a 400 "No data provided" |
| Validation.FirstMissingFieldNamed | app.py:145-148 | the first absent field, in the order orbital_period, transit_duration, planetary_radius, is named in a 400 |
| Validation.FirstConversionFailureReported | app.py:151-153 | the first field that `float()` rejects decides the response: a ValueError is 400 "Invalid input value: ...", any other exception 500 "Prediction error: ..." |
| Validation.FirstNonPositiveFieldNamed | app.py:156-161 | once every field converts, the first one `<= 0` is named in a 400, in the same order |
| Validation.ValidateSucceedsIff | app.py:131-161 | validation succeeds exactly when the model is loaded, all three fields are present, each converts and none is `<= 0`; the features are then the converted values in order |
| Validation.RejectionStatus | app.py:131-161 | every rejection is a 400 or a 500; a 500 comes only from a missing model, an unreadable body or a conversion that raised something other than a ValueError |
| Validation.NonFiniteValuesPass | app.py:156-161 | NaN and +infinity pass the `<= 0` checks |
| Grouping.Grouped | app.py:194-202 | the grouped confidence has exactly the three category names as keys |
| Grouping.SeededIsEmptyGrouping | app.py:194-198 | the seeded dictionary, every category at 0, is the grouping of no entries |
| Grouping.GroupedStep | app.py:201-202 | adding one entry adds its probability to its bucket and changes no other bucket |
| Grouping.GroupConfidence | app.py:194-202 | the loop succeeds exactly when every label has a bucket, and then each bucket is the sum of the probabilities of the labels that map to it; otherwise it stops at the first label without a bucket and reports that label's lookup key |
| Grouping.PrefixesHaveBuckets | app.py:200-202 | if every label has a bucket, so does every label of each prefix |
| Grouping.AllHaveBucketsIff | app.py:200-202 | the loop's success condition says that every label has a bucket |
| Grouping.GroupedSumsToTotal | app.py:194-202 | when every label has a bucket, the three buckets together add up to the total of the detailed probabilities |
| Grouping.BucketWithinTotal | app.py:194-202 | with probabilities that are not negative, every bucket lies between 0 and the total |
| Prediction.Predict | app.py:131-234 | validation failures are returned unchanged; an exception from the classifier goes to its handler; a 200 carries the validated features, the main category of the detailed label and, when probabilities exist, the grouped confidence of the detailed entries; a label without a bucket gives 500 "Prediction error: 'label'"; every status is 200, 400 or 500 |
| Prediction.BucketedIffClassified | app.py:200-202 | a detailed label has a bucket exactly when a keyword classifies it, and a label without one is its own lookup key |

## Left out

- Flask routing, `jsonify`, CORS, `app.run` and the `/`, `/performance` and `/health` routes: HTTP plumbing, not decision logic.
- Loading the model, scaler and label encoder with `joblib`: file I/O. Whether the model loaded is a field of the request.
- `scaler.transform`, `model.predict`, `model.predict_proba`, `label_encoder.inverse_transform` and `np.array`: foreign scikit-learn and numpy calls. Their outcome is a parameter of `Prediction.Predict`: a detailed label and the detailed entries, or the exception raised.
- The branch for a server without a label encoder (app.py:179-180, 208-212, using the default `CLASS_LABELS`): the model assumes the encoder was loaded.
- `float()` parsing and IEEE rounding: conversion is an input outcome, and the `+=` sums are exact `real` sums.
- Request bodies that are JSON but not an object (a list, a number, a string): a body is `null`, unreadable or an object.
- `PERFORMANCE_METRICS`, `print` logging.
- Text.ToUpper: models `str.upper()` on ASCII letters only; Unicode case mappings, such as "ß" becoming "SS", are not modelled.
- Prediction.KeyErrorText: `str(KeyError(label))` is `repr(label)`; the model puts the label between single quotes and does not model repr's choice of quotes or its escaping.
- Grouping.GroupConfidence: the detailed dictionary is a sequence of entries in iteration order; that its keys are distinct is not used.
- The React frontend, which renders the response, is not part of this model. Its renderer has a category scan of its own, which is described with FALSE, FA and REFUTED as the false-positive keywords. `map_to_main_category` also tests NOT (app.py:53). Where the two differ, the model follows app.py.
