# Loan prediction form: feature encoder

This project models the feature encoder of the loan prediction app. The app is a
two-page Streamlit app. On its Prediction page it collects one loan applicant:
five numbers and six categorical answers. It then turns that applicant into a
16-element numeric vector for a pre-trained classifier. The encoder has three parts:

- Lookup encodings. `get_fvalue` codes yes/no answers as No=1 and Yes=2.
  `get_value`, used with `gender_dict` and `edu`, codes Male=1 and Female=2,
  and Graduate=1 and Not Graduate=2. Any string not in a table gets the code 0,
  and nothing fails.
- Two one-hot blocks. Dependents becomes four indicators. "0", "1" and "2" each
  select their own indicator; every other string, "3+" included, selects the
  last. Property area becomes three indicators. "Rural" is checked first, then
  "Urban", and every other string selects Semiurban.
- Vector assembly in a fixed column order: the five numbers, gender, married,
  the four dependents indicators, education, self-employed, and then Rural,
  Urban, Semiurban.

Modules:

- `Wrappers` (wrappers.dfy): `Option`.
- `Indicators` (indicators.dfy): indicator groups. `OneHot(k, n)` has only
  position `k` set. `CountOnes` counts the 1s, and `ExactlyOneHot` means
  "exactly one 1, every other position 0". `HotIndex` is the inverse of
  `OneHot`.
- `Codes` (codes.dfy): `Lookup` (the `dict.get(val, 0)` idiom), the three
  tables, and `FValue`, `GenderCode` and `EducationCode`.
- `Encoder` (encoder.dfy): the `Applicant` record and the widget option sets
  (`OptionSets`, `NumericWidgets`, `WidgetDomain`). Also the two one-hot blocks
  and `Encode`. `Column` and `ColumnValue` give an independent reference for
  the vector: the sixteen columns of `feature_list` by name, and what each one holds.
- `Decoder` (decoder.dfy): `Decode`, the partner of `Encode`. It reads a vector
  back into an applicant record. The proofs show that on the answers the form
  offers, the vector determines the record.

Numbers are `real` and strings are `seq<char>`. The encoder does no arithmetic
on the numbers, so float semantics play no part.

## Model

| member | source | states |
|---|---|---|
| Codes.Lookup | loan_app.py:12-13 | a key of the table yields its code; any other string yields 0 and does not fail; the result is always 0 or one of the table's codes |
| Codes.LookupFallbackIff | loan_app.py:12-13 | when no key of the table has code 0, the result is 0 exactly when the string is not a key, so the fallback cannot be mistaken for a real code |
| Codes.FValue | loan_app.py:8-10 | "No" gives 1, "Yes" gives 2, and every other string gives 0 (each as an if-and-only-if) |
| Codes.GenderCode | loan_app.py:75 | the `gender_dict` lookup of line 34: "Male" gives 1, "Female" gives 2, every other string gives 0 (each as an if-and-only-if) |
| Codes.EducationCode | loan_app.py:78 | the `edu` lookup of line 35: "Graduate" gives 1, "Not Graduate" gives 2, every other string gives 0 (each as an if-and-only-if) |
| Indicators.OneHotIsExactlyOne | loan_app.py:52-69 | a group with a single set position has every entry 0 or 1 and exactly one 1, at any width, so both one-hot blocks are exclusive |
| Indicators.HotIndex | loan_app.py:52-69 | the inverse of one-hot encoding: a result exists exactly when the group has exactly one 1, and the group is then the one-hot group of that position |
| Indicators.HotIndexOfOneHot | loan_app.py:52-69 | reading back a one-hot group gives the position that was set |
| Encoder.DependentsOneHot | loan_app.py:52-60 | four indicators, exactly one of them 1; indicator 0, 1 or 2 is set exactly when the answer is "0", "1" or "2"; indicator 3 is set exactly when it is none of those |
| Encoder.PropertyOneHot | loan_app.py:63-69 | three indicators, exactly one of them 1; Rural is set exactly for "Rural", Urban exactly for "Urban", Semiurban for every other string |
| Encoder.Encode | loan_app.py:72-81 | the vector has one element per column of `feature_list`: 16 |
| Encoder.EncodeMatchesColumns | loan_app.py:72-81 | element i is what the i-th named column of `feature_list` holds for the applicant, for all 16 positions |
| Encoder.EncodeLayout | loan_app.py:72-81 | numbers at 0-4, gender code at 5, married code at 6, dependents indicators at 7-10, education code at 11, self-employed code at 12, property indicators at 13-15 |
| Encoder.NumbersPassThrough | loan_app.py:73-74 | elements 0-4 are applicant income, coapplicant income, loan amount, loan term and credit history, unchanged |
| Encoder.NumbersAndAnswersSeparate | loan_app.py:72-81 | records with the same answers agree on elements 5-15 whatever their numbers, and records with the same numbers agree on elements 0-4 |
| Encoder.CodesAndIndicatorsInRange | loan_app.py:72-81 | elements 5, 6, 11 and 12 are in {0,1,2}; elements 7-10 and 13-15 are in {0,1}; each indicator block has exactly one 1 |
| Encoder.FallbackIffOutsideOptions | loan_app.py:75-79 | a code element is 0 exactly when its answer is not among the options the form offers for that question |
| Encoder.NoFallbackOnOptions | loan_app.py:44-48 | for answers drawn from the form's options, elements 5, 6, 11 and 12 are all 1 or 2 |
| Encoder.EncodeEqualIff | loan_app.py:72-81 | two records give equal vectors exactly when their numbers agree and each answer gets the same code or indicator; this covers determinism and says what the encoder forgets |
| Encoder.UnrecognisedDependentsCollapse | loan_app.py:59-60 | any dependents string other than "0", "1" and "2" gives the same vector as "3+", with the dependents block [0,0,0,1] |
| Encoder.UnrecognisedPropertyIsSemiurban | loan_app.py:68-69 | any property string other than "Rural" and "Urban" gives the same vector as "Semiurban", with the property block [0,0,1] |
| Encoder.WidgetVectorNonNegative | loan_app.py:39-49 | every vector the form can produce has only non-negative elements |
| Encoder.ExampleVector | loan_app.py:72-81 | a worked example: 500, 0, 200, 360, 1, Male, No, No, "0", Graduate, Rural encodes to [500,0,200,360,1,1,1,1,0,0,0,1,1,1,0,0] |
| Decoder.Decode | loan_app.py:44-49 | a decoded record always has all its answers among the form's options |
| Decoder.DecodeEncode | loan_app.py:72-81 | for answers from the form's options, decoding the vector gives back the applicant record |
| Decoder.EncodeDecode | loan_app.py:72-81 | whatever record a vector decodes to encodes back to that same vector |
| Decoder.EncodeInjectiveOnOptions | loan_app.py:44-49 | on the form's options, two records share a vector exactly when they are equal |

## Left out

- The Streamlit shell is not modelled: the page selector, titles, images, and the Home page's CSV preview and bar chart (loan_app.py:16-27). These are UI and file I/O.
- The widgets are not modelled (loan_app.py:38-49). Only the ranges and option sets they offer are kept, as the `NumericWidgets`, `OptionSets` and `WidgetDomain` predicates. The step of 1 on the two integer income sliders (loan_app.py:39-40) is kept as "whole number"; only the loan-amount slider's 0.01 step (loan_app.py:41) is left out.
- Reading and base64-encoding the two GIF files is not modelled (loan_app.py:85-89). It is file I/O and a library call.
- Loading the pickled classifier and calling `predict` is not modelled (loan_app.py:91-92). The classifier is an opaque artifact. The success or failure message is left out too (loan_app.py:94-99), because it depends only on that prediction.
- The `np.array(...).reshape(1, -1)` conversion to a 1x16 float64 array is not modelled (loan_app.py:82). The vector stays a `seq<real>`, so float64 rounding is not modelled either.
- The `prop` dictionary's codes (Rural 1, Urban 2, Semiurban 3, loan_app.py:36) never reach the vector. Only its keys are used, as the property-area options in `PropertyOptions`.
- Property area follows the code: "Rural" is tested first, then "Urban", and anything else is Semiurban. A variant of the app that defaults to Rural is not part of this model.
