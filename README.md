# Heart-disease prediction request, modelled in Dafny

This project models what the Flask app does with one submitted form on its home page. The route is `home()` in `flask_app/app.py`.

1. **Feature engineering.** The 13 clinical fields are read into a record and put into a one-row DataFrame. Columns are then assigned in place, one after another:
   - the products `thalach_oldpeak` and `cp_trestbps`;
   - the categorical bins `age_bins` (age cut at 0, 40, 55, 70 and 100);
   - the categorical bins `chol_bins` (cholesterol cut at 0, 200, 240 and 600).

   `pd.get_dummies` then replaces the two bin columns with the indicator columns `age_bins_0..3` and `chol_bins_0..2`.
2. **Schema alignment.** `reindex(columns=expected_columns, fill_value=0)` lays the row out on the column list the models were trained with.
3. **Vote aggregation.** Each model gives a verdict string, kept in the models' order. The positive labels are summed. The overall percentage is `round(positives / len(models) * 100)`, and the sentence `"<pct>% chance that you have heart disease"` reports it.

Modules:
- `Wrappers`: the `Option` type.
- `Dicts`: insertion-ordered dictionaries as sequences of key/value pairs. `Set` models `d[k] = v` and `Get` models lookup.
- `Numerals`: Python's `str(int)`.
- `Frames`: one-row DataFrames. The cells are numbers or `pd.cut` categoricals. The class `DataFrame` has a `SetItem` that changes the frame in place.
- `Binning`: `pd.cut` with right-closed intervals.
- `OneHot`: `pd.get_dummies`.
- `Engineering`: the engineering steps. The method `Engineer` builds the row by in-place column assignments, and is proved equal to the function `EngineeredRow`.
- `Alignment`: `reindex`.
- `Aggregation`: the voting loop, round-half-to-even and the message.
- `Pipeline`: the whole POST branch.

The polynomial expansion, the scaler and the classifiers are parameters of type function.

## Model

| member | source | states |
|---|---|---|
| Engineering.RawRecord | flask_app/app.py:49-54 | a record exists exactly when all 13 named fields are in the form, and each field holds the form's value |
| Engineering.Entries | flask_app/app.py:54 | the raw dict has the 13 field names as keys, in the order of the features list, with the record's values |
| Frames.FromRecord | flask_app/app.py:57 | `pd.DataFrame([raw])` has the dict's keys as columns, in order, each cell the dict's number |
| Frames.DataFrame.constructor | flask_app/app.py:57 | the new frame is the one-row frame of the dict and has unique columns |
| Frames.DataFrame.SetItem | flask_app/app.py:58-65 | a column assignment leaves the frame equal to `Set` of the old cells and keeps the columns unique |
| Dicts.Set | flask_app/app.py:58-65 | `d[k] = v` overwrites an existing key in place and otherwise appends `k` last; afterwards `k` reads `v`, every other key reads as before, and keys stay unique |
| Engineering.Engineer | flask_app/app.py:57-66 | the four in-place assignments followed by `get_dummies` yield exactly the engineered row `EngineeredRow(raw)` |
| Engineering.EngineeredFields | flask_app/app.py:54-57 | each of the 13 raw fields is carried into the engineered row unchanged |
| Engineering.EngineeredProducts | flask_app/app.py:58-59 | `thalach_oldpeak` is thalach times oldpeak and `cp_trestbps` is cp times trestbps |
| Binning.Cut | flask_app/app.py:60-65 | with increasing edges, a returned bin i satisfies edges[i] < x <= edges[i+1]; there is no bin exactly when x <= the first edge or x > the last |
| Binning.AgeBin | flask_app/app.py:60-62 | the age bin is one of the 4 categories and the age lies in that bin's right-closed interval; there is no bin exactly when age <= 0 or age > 100 |
| Binning.CholBin | flask_app/app.py:63-65 | the cholesterol bin is one of the 3 categories and the value lies in that bin's right-closed interval; there is no bin exactly when chol <= 0 or chol > 600 |
| Binning.AgeBinIntervals | flask_app/app.py:60-62 | age bin is 0, 1, 2 or 3 exactly for age in (0,40], (40,55], (55,70] or (70,100]; there is none (NaN) exactly when age <= 0 or age > 100 |
| Binning.CholBinIntervals | flask_app/app.py:63-65 | cholesterol bin is 0, 1 or 2 exactly for chol in (0,200], (200,240] or (240,600]; there is none exactly when chol <= 0 or chol > 600 |
| Binning.BinBoundaries | flask_app/app.py:60-65 | boundary values go to the lower bin (40→0, 55→1, 70→2, 100→3, 200→0, 240→1, 600→2), 63→2 and 233→1, and 0, 100.5 and 601 get no bin |
| OneHot.DummiesHotCount | flask_app/app.py:66 | an indicator group has exactly one set indicator when the bin is one of its categories, and none for NaN |
| OneHot.DummiesExclusive | flask_app/app.py:66 | indicator `prefix_k` is 1 exactly when the cell holds category k, and 0 otherwise |
| OneHot.DummyNamesDistinct | flask_app/app.py:66 | the indicator columns of one encoded column have pairwise different names |
| Dicts.DropGet | flask_app/app.py:66 | dropping the keys `ks` removes exactly those keys, and every other key reads as before |
| OneHot.GetDummiesKept | flask_app/app.py:66 | `get_dummies` (`OneHot.GetDummies`) removes the encoded columns, and every other column of the row keeps its cell |
| Engineering.EngineeredShape | flask_app/app.py:57-66 | the engineered row `EngineeredRow(raw)` is the record's columns, then the two products, then the age indicators, then the cholesterol indicators |
| Engineering.EngineeredKeys | flask_app/app.py:66 | the engineered columns are exactly the 13 fields, the two products, `age_bins_0..3` and `chol_bins_0..2`, in that order and without repeats; `age_bins` and `chol_bins` are gone |
| Engineering.EngineeredAgeIndicators | flask_app/app.py:60-66 | indicator `age_bins_k` is 1 exactly when the age falls in bin k |
| Engineering.EngineeredCholIndicators | flask_app/app.py:63-66 | indicator `chol_bins_k` is 1 exactly when the cholesterol falls in bin k |
| Engineering.EngineeredOneHot | flask_app/app.py:60-66 | an in-range age (cholesterol) sets exactly one age (cholesterol) indicator, and an out-of-range value sets none |
| Engineering.EngineeredNumeric | flask_app/app.py:66-70 | every engineered cell is a number, so the row can be handed to the numeric transforms |
| Engineering.ExampleRequest | flask_app/app.py:54-66 | for age 63, cp 3, trestbps 145, chol 233, thalach 150 and oldpeak 2.3, the products are 345 and 435, `age_bins_2` and `chol_bins_1` are 1, and every other age and cholesterol indicator is 0 |
| Pipeline.AlignedVector | flask_app/app.py:67-70 | the array handed to `poly.transform` has one number per expected column: the engineered cell of that column, or 0 when the engineered row lacks it (`Pipeline.ModelInput` passes it through the two opaque transforms) |
| Alignment.Reindex | flask_app/app.py:67 | the aligned row's column list is exactly `expected_columns`: same length, same order |
| Alignment.ReindexAt | flask_app/app.py:67 | position i of the aligned row holds expected column i and the row's cell, or 0 when the row lacks that column |
| Alignment.ReindexGet | flask_app/app.py:67 | an expected column of the aligned row reads the row's cell, or 0 when the row lacks it |
| Alignment.ReindexPresent | flask_app/app.py:67 | an expected column the row has keeps its value |
| Alignment.ReindexMissing | flask_app/app.py:67 | an expected column the row lacks is 0 |
| Alignment.ReindexDropped | flask_app/app.py:67 | a column that is not expected is not in the aligned row |
| Alignment.ReindexIdempotent | flask_app/app.py:67 | aligning an aligned row again changes nothing |
| Alignment.ReindexIdentity | flask_app/app.py:67 | a row whose unique columns are already the expected ones is left unchanged |
| Alignment.ReindexNumeric | flask_app/app.py:67 | aligning a numeric row gives a numeric row |
| Aggregation.Verdict | flask_app/app.py:78-81 | the verdict is one of the two texts, and it is "High Chance of Heart Disease" exactly when the label is 1 |
| Aggregation.Verdicts | flask_app/app.py:74-81 | `detailed` has one entry per model, keyed by the model names in the models' order |
| Aggregation.Aggregate | flask_app/app.py:74-82 | the loop builds `detailed` as each model's verdict under its name, in the models' order, and `positives` as the sum of the predicted labels |
| Aggregation.VerdictOf | flask_app/app.py:76-81 | looking up a model's name in `detailed` gives "High Chance of Heart Disease" when that model predicts 1, and "Low Chance of Heart Disease" otherwise |
| Aggregation.SumCountsPositives | flask_app/app.py:77-82 | with labels in {0,1}, the summed labels equal the number of models that predict 1, which is between 0 and the number of models |
| Aggregation.RoundHalfEven | flask_app/app.py:84 | the result is within half a unit of n/d, and on a tie it is even (Python's `round`) |
| Aggregation.Percent | flask_app/app.py:84 | the percentage is 100·positives/len(models) rounded to the nearest integer, ties to even |
| Aggregation.RoundHalfEvenUnique | flask_app/app.py:84 | only one integer is nearest with ties to even, so the rounding is fully determined by that contract |
| Aggregation.RoundHalfEvenMonotone | flask_app/app.py:84 | a larger quotient never rounds lower |
| Aggregation.RoundHalfEvenExact | flask_app/app.py:84 | a whole quotient rounds to itself |
| Aggregation.PercentBounds | flask_app/app.py:84 | with between 0 and all models voting positive, the percentage is between 0 and 100 |
| Aggregation.PercentMonotone | flask_app/app.py:84 | more positive votes never lower the percentage |
| Aggregation.PercentOfFive | flask_app/app.py:14-30 | with the five configured models, the percentage is exactly 20 per positive vote (0→0, 3→60) and no rounding happens |
| Aggregation.Message | flask_app/app.py:85 | the message ends with "% chance that you have heart disease" |
| Aggregation.MessageDigits | flask_app/app.py:85 | the text before that suffix is exactly `NatToString(pct)`, the percentage printed without leading zeros, and it reads back as the percentage |
| Aggregation.MessageInjective | flask_app/app.py:85 | different percentages give different messages |
| Aggregation.MessageSixty | flask_app/app.py:85 | 60 is reported as "60% chance that you have heart disease" |
| Numerals.NatToString | flask_app/app.py:85 | a number prints as at least one decimal digit, and its first digit is 0 only for the number 0 (no leading zeros) |
| Numerals.NatToStringValue | flask_app/app.py:85 | the printed decimal digits of a number read back as that number |
| Pipeline.Home | flask_app/app.py:47-99 | the request fails exactly when a form field is missing; otherwise the report keeps the raw inputs, and holds the verdicts of the models on the aligned, transformed row, the rounded share of positive votes, and the sentence that states it |
| Pipeline.ReportPercent | flask_app/app.py:77-84 | with 0/1 labels, the reported percentage is the rounded share of models predicting 1 and lies between 0 and 100 |
| Pipeline.ExampleVote | flask_app/app.py:84-85 | three positive votes of five give 60 and the message "60% chance that you have heart disease" |

## Left out

- Flask is not modelled: the GET branch, routing, `render_template` and the `session` store. `Pipeline.Report` stands for what is stored and rendered.
- The PDF report (`generate_report`) and the browser animation script are not part of this model. They are layout and rendering only.
- Loading the pickled models, scaler, polynomial expansion and column list from disk is left out. These objects are parameters of `Pipeline.Home`.
- The internals of `poly.transform`, `scaler.transform` and `model.predict` are left out, because they are fitted numeric objects. They appear as opaque functions, and a classifier gives the `int` of its first prediction.
- Parsing of the form strings with `float()` is left out. The form arrives as already-parsed numbers. A missing field is modelled as the rejected request (`BadRequest`). A non-numeric value, which would also abort the request, is not modelled.
- IEEE-754 rounding is left out. The products are exact `real` products, and the percentage is computed in exact integer arithmetic. With five models, 100·p/5 is a whole number, so float and exact arithmetic agree.
- pandas dtypes are not distinguished. float64 cells, boolean/uint8 indicators and the integer fill value 0 are all numbers (`Num`).
- Pipeline.Home: the rule "the request fails exactly when a form field is missing" holds only for the abstraction used here. These failures are not modelled:
  - `float()` accepting "nan", "inf" or values that overflow, which give non-finite inputs;
  - float overflow of the products (for example two factors of 1e200);
  - the fitted transforms or a classifier rejecting such input, or failing for any other reason.

  Inputs are exact `real` numbers, and the transforms and classifiers are total functions.
- `Pipeline.Home`: requires at least one model. With no models, the source would fail with a division by zero; the configuration always holds five.
- `OneHot.GetDummies` is only defined for columns that hold categoricals, which is how the source uses it. pandas' encoding of non-categorical columns is not modelled.
- pandas' error on reindexing a frame with duplicate columns is not modelled. The engineered row never has duplicates (`Engineering.EngineeredKeys`).
