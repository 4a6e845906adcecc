# Loan scoring: preprocessing and the /predict decision, in Dafny

This project models the core of a small loan-approval web application. It has two parts.

- **`LoanPreprocessor`** (`src/preprocessing.py`). The object is fitted once on the training table.
  `fit_and_clean` records four fill statistics:
  - the modes of Gender, Married and Credit_History;
  - the median of LoanAmount.

  `transform` then replays the same cleaning on any table:
  - it fills the missing cells of those four columns, falling back to Male, Yes, 120 and 1.0 when nothing was fitted;
  - it defaults a missing Loan_Amount_Term to 360;
  - it derives Total_Income, EMI and Total_Income_Log;
  - it drops Loan_ID.
- **The body of `predict`** (`app/main.py`). The submitted form becomes a one-row table.
  - Three wizard fields get defaults when absent.
  - Five numeric fields are coerced to numbers.
  - A debt-to-income ratio is computed from the raw text.
  - The preprocessor and the label encoders prepare the row, and the trained feature columns are selected in order.
  - The classifier's label and probability give the status and the confidence, and a three-way advisor picks one advice line.
  - Any exception becomes the text "An error occurred: …".

Files:

- `frames.dfy` (module `Frames`): a one-table model of the pandas operations used.
  - Cells are missing (NaN), text, a number or non-finite.
  - Columns are looked up by name and have equal lengths.
  - Element-wise `+`, `/` and `log(x + 1)` follow pandas' NaN and division-by-zero rules.
  - When `/` on a column of text raises, pandas divides again only where neither side is NaN, so a NaN cell against text gives NaN there.
  - The Python exceptions these operations raise are modelled as a `Result`.
  - Library primitives the model does not open up are the fields of a `Runtime` value:
    - number parsing;
    - the text of a float;
    - `ln`;
    - `mode()[0]`, and `median()` of a column without text (a column with text makes `median()` raise).
- `numbers.dfy` (module `Numbers`): Python's `round` (half to even) on reals, and `str` of an int.
- `preprocessing.dfy` (module `Preprocessing`):
  - `Transformed`, the transform as a function of the statistics;
  - the class `LoanPreprocessor`, whose only state is `stats`, with `FitAndClean` and `Transform`.
- `transform_properties.dfy` (module `TransformProperties`): what the transform promises about its output.
- `serving.dfy` (module `Serving`):
  - `Pipeline` states the try block of `predict` as a function;
  - `Predict` is the handler as a method, with the defaults loop, the coercion loop and the encoder loop.
- `serving_properties.dfy` (module `ServingProperties`): what the handler promises.

Five behaviours of the code, as written, are part of the model.

- The 360 default for Loan_Amount_Term at src/preprocessing.py:32 never applies on the serving path.
  - An absent term raises KeyError at app/main.py:56.
  - An empty term is coerced to 0 there, and EMI then divides by zero, giving an infinite value, or NaN for a zero amount (`EmptyTermNotDefaulted`).
- A numeric field absent from the form raises KeyError at app/main.py:56 (`AbsentNumericFieldFails`). It is not defaulted.
- Gender and Married are neither defaulted (app/main.py:48) nor coerced (app/main.py:54). A form without one of them ends with KeyError for the first one missing, raised by the fill at src/preprocessing.py:21-22 (`AbsentFilledFieldFails`).
- ApplicantIncome and LoanAmount are parsed a second time from the raw form with `float()` at app/main.py:60-61, which does not coerce. A text that the coercion at app/main.py:56 turned into 0 still ends the request with ValueError, the income's before the amount's (`RawFieldsReparsed`).
- A declined application scores `(1 - prob) * 100` at app/main.py:81, with `prob` the class-1 probability. So a declined score of 70.0 comes from prob = 0.3, and `CreditScenario` uses that.

The transform divides the amount by the term without a zero guard. The model does not require a non-zero term. `DivCells` instead gives what pandas computes: an infinite value for x/0 with x ≠ 0, and NaN for 0/0. This keeps the serving path with an empty term callable, so its behaviour can be stated.

## Model

| member | source | states |
|---|---|---|
| `Preprocessing.LoanPreprocessor.constructor` | src/preprocessing.py:5-7 | a new preprocessor has no statistics |
| `Preprocessing.LoanPreprocessor.FitAndClean` | src/preprocessing.py:9-16 | `stats` becomes the four recorded statistics, in the order written. A write that raises (an absent column, no mode, or a median over text) leaves the earlier writes in place and returns that error. On success the result is the transform of the same table with the new statistics |
| `Preprocessing.LoanPreprocessor.Transform` | src/preprocessing.py:18-42 | the result is `Transformed` with the current statistics. It has no `modifies` clause, so `stats` is never written. Tables are values, so the caller's table is untouched |
| `Preprocessing.StatOr` | src/preprocessing.py:21-24 | `self.stats.get(key, fallback)`: the recorded statistic when its key is present, and the fallback otherwise |
| `Preprocessing.Record` | src/preprocessing.py:11-14 | one write of `fit_and_clean`. After an earlier exception nothing happens. An absent column raises KeyError for that column. A write that raises leaves the statistics unchanged. A write that succeeds adds its own key and keeps every other entry |
| `Preprocessing.Fitted` | src/preprocessing.py:11-14 | the four writes in order, whether or not one raises. The statistics keep every earlier key and gain only the four statistics keys, and an entry outside those keys is unchanged. The only exceptions are KeyError, the empty mode, and the median over text in LoanAmount |
| `Preprocessing.FitWritesStatKeys` | src/preprocessing.py:11-14 | a successful fit adds exactly the keys Gender_mode, Married_mode, LoanAmount_median and Credit_History_mode. Each holds the mode or median of its own column, and every other entry is kept |
| `Preprocessing.FitFailsExactly` | src/preprocessing.py:11-14 | the fit raises exactly when one of the four columns is absent, one of the three mode columns has no mode, or the LoanAmount column holds text |
| `Preprocessing.FillColumn` | src/preprocessing.py:21 | `df[col].fillna(v)` succeeds exactly when the column exists, and otherwise raises KeyError for that column. It replaces that column by its filled copy |
| `Preprocessing.FillMissing` | src/preprocessing.py:21-24 | succeeds exactly when the four fitted columns exist. Each becomes `fillna` with its statistic, or with its fallback when not fitted. Every other column and the row count are kept |
| `Preprocessing.Engineer` | src/preprocessing.py:28-36 | on success, the term is the term with missing cells set to 360. Cell by cell, Total_Income is the sum of the incomes, EMI is the amount over the defaulted term, and Total_Income_Log is log(Total_Income + 1). Every other column is kept |
| `Preprocessing.Transformed` | src/preprocessing.py:18-42 | the output has the input's columns plus the three derived ones, never Loan_ID, and the same row count |
| `Preprocessing.DropId` | src/preprocessing.py:38-40 | the table without Loan_ID when it has one, and unchanged otherwise: every other column keeps its values |
| `TransformProperties.Steps` | src/preprocessing.py:18-42 | a successful transform is a successful fill, then a successful derivation, then dropping Loan_ID |
| `TransformProperties.TransformNeedsColumns` | src/preprocessing.py:21-33 | transform raises unless all seven columns it reads are present |
| `TransformProperties.TransformRaisesFirstAbsent` | src/preprocessing.py:21-24 | when one of the four fitted columns is absent, the fill and transform raise KeyError for the first absent one, in the order Gender, Married, LoanAmount, Credit_History |
| `TransformProperties.TransformNeedsGenderFirst` | src/preprocessing.py:21-22 | a table without Gender transforms to KeyError('Gender'). A table with Gender but without Married transforms to KeyError('Married') |
| `TransformProperties.FilledColumnKept` | src/preprocessing.py:21-24 | each fitted column leaves transform exactly as the fill left it |
| `TransformProperties.TransformFillsOnlyMissing` | src/preprocessing.py:21-24 | in a fitted column, a present cell is unchanged and a missing cell becomes the statistic, or the fallback when not fitted |
| `TransformProperties.UnfittedFallbacks` | src/preprocessing.py:21-24 | with empty statistics, missing Gender, Married, LoanAmount and Credit_History become Male, Yes, 120 and 1.0 |
| `TransformProperties.TransformDefaultsTerm` | src/preprocessing.py:32 | a present term is unchanged and a missing term becomes 360 |
| `TransformProperties.TransformDerives` | src/preprocessing.py:28-36 | for every row, Total_Income is the input incomes' sum, EMI is the filled amount over the filled term, and Total_Income_Log is log(Total_Income + 1) |
| `TransformProperties.TransformIncomeArithmetic` | src/preprocessing.py:28-36 | on numbers, Total_Income = ApplicantIncome + CoapplicantIncome, and Total_Income_Log = ln(Total_Income + 1) where that is defined |
| `TransformProperties.TransformEmiArithmetic` | src/preprocessing.py:32-33 | on numbers, EMI = amount / term for a non-zero term. A zero term gives infinity, or NaN for a zero amount, instead of an exception |
| `TransformProperties.ZeroTermEmi` | src/preprocessing.py:32-33 | a zero term stays zero through transform, and the EMI of a present amount over it is NaN for a zero amount and infinite otherwise |
| `TransformProperties.TransformKeepsOtherColumns` | src/preprocessing.py:18-42 | every column that transform does not write keeps its values. Loan_ID is gone and the row count is kept |
| `TransformProperties.TransformSucceeds` | src/preprocessing.py:18-42 | transform succeeds exactly when the seven columns it reads are present, neither income holds text, the filled LoanAmount holds no text, and a text term meets only a NaN amount |
| `TransformProperties.TransformedIsTransformable` | src/preprocessing.py:18-42 | a successful transform had all seven columns and no text where the arithmetic would raise |
| `TransformProperties.TransformedRowAccepted` | src/preprocessing.py:28-36 | in each row of a successful transform, the incomes and the filled amount are not text, and a text term meets a NaN amount |
| `TransformProperties.EngineerSucceeds` | src/preprocessing.py:28-36 | the derivation succeeds when the incomes and the amount hold no text and a text term meets only a NaN amount |
| `TransformProperties.FillMissingReproduces` | src/preprocessing.py:21-24 | filling a table whose fitted columns are already filled changes nothing |
| `TransformProperties.EngineerReproduces` | src/preprocessing.py:28-36 | deriving again from an earlier derivation's inputs and outputs reproduces the table |
| `TransformProperties.EngineerInputsKept` | src/preprocessing.py:38-40 | dropping Loan_ID keeps the four columns the derivation reads and the three it writes |
| `TransformProperties.TransformIdempotent` | src/preprocessing.py:18-42 | with the statistics fixed, transforming a transformed table gives it back unchanged |
| `Frames.Frame.Column` | app/main.py:56 | `df[name]` yields the column when it exists, and raises KeyError for that name otherwise |
| `Frames.Frame.Set` | src/preprocessing.py:21 | assigning a column of the right length keeps the table rectangular and adds the name. The named column holds the new cells, and every other column is unchanged |
| `Frames.Frame.Drop` | src/preprocessing.py:39-40 | dropping a column removes exactly that name, keeps the row count, and leaves every remaining column unchanged |
| `Frames.Repeat` | app/main.py:50-51 | a scalar assigned to a column is broadcast: `n` cells, each holding the value |
| `Frames.HasText` | src/preprocessing.py:13 | a scan of the column is true exactly when some cell is text, the case in which `median()` raises |
| `Frames.Text` | app/main.py:71 | `astype(str)` keeps a text, writes NaN as "nan", and writes a number as the runtime's float text |
| `Frames.Error.Message` | app/main.py:104 | `str(e)`: a KeyError's text is its key between single quotes, and a ValueError's text ends with the rejected text, quoted |
| `Frames.FillNa` | src/preprocessing.py:21-24 | `fillna(v)` keeps every present cell and puts `v` in every missing one |
| `Frames.ZipCells` | src/preprocessing.py:28 | an element-wise operation on two columns succeeds exactly when every pair succeeds, and yields each pair's result |
| `Frames.LogCells` | src/preprocessing.py:36 | `np.log(col + 1)` succeeds exactly when no cell is text, and yields each cell's logarithm |
| `Frames.AddCells` | src/preprocessing.py:28 | `+` raises exactly when one operand is text and the other is not. It gives text exactly for two texts, and adds two numbers |
| `Frames.DivCells` | src/preprocessing.py:33 | `/` raises exactly when an operand is text and neither is NaN. NaN against anything gives NaN. It divides by a non-zero number, and gives infinity or NaN for a zero divisor |
| `Frames.LogOnePlus` | src/preprocessing.py:36 | `np.log(c + 1)` raises exactly on text, and is ln(c + 1) where c + 1 > 0 |
| `Numbers.Round` | app/main.py:81 | `round(x, d)` shifted by d decimal places is the integer nearest x shifted by d places, with ties to even |
| `Numbers.IntText` | app/main.py:90 | `str(n)`: non-empty, with a leading minus exactly for a negative n, and decimal digits everywhere else |
| `Numbers.RoundHalfEven` | app/main.py:90 | `round(x)` is within 0.5 of x, and a tie goes to the even neighbour |
| `Numbers.RoundHalfEvenUnique` | app/main.py:90 | those two properties single out `round(x)` |
| `Numbers.RoundMonotone` | app/main.py:81 | `round(x, d)` is monotone |
| `Numbers.RoundOfInt` | app/main.py:81 | a whole number is not changed by `round(x, d)` |
| `Numbers.RoundWithin` | app/main.py:81 | `round(x, d)` stays inside any interval with whole-number ends |
| `Numbers.NatText` | app/main.py:90 | `str(n)` is non-empty decimal digits, without a leading zero |
| `Numbers.NatTextValue` | app/main.py:90 | reading back `str(n)` gives n |
| `Numbers.IntTextInjective` | app/main.py:90 | different integers have different texts |
| `Serving.FromForm` | app/main.py:44-45 | the form becomes one row holding each submitted field's text, and nothing else |
| `Serving.AddDefault` | app/main.py:50-51 | an absent field is added with its value in every row, and the table is otherwise unchanged. A present field is left as it is |
| `Serving.WithDefaults` | app/main.py:48-51 | the defaults loop keeps the table rectangular with the same row count |
| `Serving.CoerceCell` | app/main.py:56 | a numeral becomes its number, and any other text becomes 0 |
| `Serving.CoerceColumn` | app/main.py:56 | the coerced column is the coercion of each cell |
| `Serving.Coerced` | app/main.py:54-56 | the coercion loop keeps the table rectangular |
| `Serving.FloatAt` | app/main.py:89 | `float(raw_data[key])` succeeds exactly when the field exists and parses. An absent field raises KeyError |
| `Serving.FloatOf` | app/main.py:60-61 | `float(raw_data.get(key, d))` is d for an absent field, and otherwise `float` of its text |
| `Serving.Dti` | app/main.py:60-63 | the divisor is positive, and ratio × divisor equals the monthly payment loan × 1000 / 360 |
| `Serving.EncodeColumn` | app/main.py:71 | `le.transform` succeeds exactly when every cell's text is a known class, and yields each text's code |
| `Serving.EncodedColumn` | app/main.py:70-73 | the try/except around one encoder gives each cell's code when every text is a known class, and a column of zeros when any one is not |
| `Serving.Encoded` | app/main.py:68-73 | encoding keeps the column names and the row count |
| `Serving.AbsentFeatures` | app/main.py:75 | lists exactly the requested names that the table lacks |
| `Serving.Columns` | app/main.py:75 | the named columns, in the order named |
| `Serving.Select` | app/main.py:75 | `processed_df[features_list]` succeeds exactly when every feature is present, and yields exactly those columns in that order. Otherwise it raises an error naming exactly the absent ones, in pandas' "None of …" form exactly when every feature is absent |
| `Serving.Status` | app/main.py:80 | APPROVED exactly for label 1, and DECLINED for any other label |
| `Serving.Confidence` | app/main.py:81 | the rounded percentage of `prob` for label 1 and of 1 - prob otherwise, so it lies in 0..100 for a probability in 0..1 |
| `Serving.DtiAdvice` | app/main.py:90 | the high-DTI line is its fixed opening, `str(round(suggested_income))`, and its fixed ending |
| `Serving.Advice` | app/main.py:84-94 | any label other than 0 gets the premier line. Every line is one of the four messages. Only label 0 can raise, with ValueError from a `float()` or KeyError('LoanAmount') |
| `Serving.Decide` | app/main.py:79-100 | succeeds exactly when the advice does. It reports that advice, `Status(pred)`, the score `Confidence(pred, prob)` (so within 0..100 for a probability in 0..1) and the ratio as round(dti × 100, 1). `PipelineDecides` shows a successful request renders exactly this decision |
| `Serving.Pipeline` | app/main.py:44-100 | the try block: coercion, the two raw parses, transform, encoding, selection, the two classifier calls and the decision, each stopping at its exception. A success is APPROVED or DECLINED. `PipelineDecides` states what a success is: `Decide` on the classifier's label and probability for the selected columns, with the ratio from the raw form |
| `Serving.Defaulted` | app/main.py:48-51 | the table after the defaults loop has one row |
| `Serving.Respond` | app/main.py:102-104 | a failure becomes "An error occurred: " followed by `Message()`, the model's rendering of the exception's text, and a success is rendered |
| `Serving.Predict` | app/main.py:44-104 | the handler's answer is the caught result of the pipeline, with the preprocessor's statistics |
| `Serving.Handle` | app/main.py:44-100 | the statements of the try block compute `Pipeline` |
| `Serving.FillDefaults` | app/main.py:44-51 | the defaults loop computes `WithDefaults` over the three defaults, in order |
| `Serving.CoerceNumerics` | app/main.py:54-56 | the coercion loop computes `Coerced` over the five numeric columns, and stops with KeyError at the first absent one |
| `Serving.EncodeAll` | app/main.py:68-73 | the encoder loop, in any order of the encoders, computes `Encoded` |
| `ServingProperties.WithDefaultsEffect` | app/main.py:48-51 | the defaults loop adds exactly the absent fields, each with its own value, and keeps every column it finds |
| `ServingProperties.DefaultsOnlyWhenAbsent` | app/main.py:48-51 | Education, Property_Area and Self_Employed get Graduate, Semiurban and No only when absent. Submitted fields keep their text. The table has exactly the form's fields plus those three |
| `ServingProperties.CoercedEffect` | app/main.py:54-56 | the coercion loop fails exactly when a listed column is absent, with KeyError for the first one. Otherwise it coerces each listed column and keeps every other column |
| `ServingProperties.CoercedOutcome` | app/main.py:54-56 | the coercion loop fails exactly when a listed column is absent, with KeyError for the first one |
| `ServingProperties.CoercedKeeps` | app/main.py:54-56 | a successful coercion loop had every listed column, keeps the column names, and keeps every unlisted column |
| `ServingProperties.CoercedColumns` | app/main.py:54-56 | a successful coercion loop over distinct columns replaces each listed column by its cell-by-cell coercion |
| `ServingProperties.NumericFieldsCoerced` | app/main.py:54-56 | each numeric field becomes its parsed number, or 0 when it does not parse |
| `ServingProperties.AbsentNumericFieldFails` | app/main.py:54-56 | a numeric field absent from the form ends the request with KeyError for the first absent one |
| `ServingProperties.AbsentFilledFieldFails` | app/main.py:44-66 | with the five numeric fields present and the income and amount parsing, a form without Gender ends the request with KeyError('Gender'), and one with Gender but without Married with KeyError('Married') |
| `ServingProperties.RawFieldsReparsed` | app/main.py:54-61 | with all five numeric fields present, an ApplicantIncome that does not parse ends the request with its ValueError. Otherwise a LoanAmount that does not parse ends it with its own ValueError, although the coercion had turned it into 0 |
| `ServingProperties.EmptyTermCoerced` | app/main.py:54-56 | an empty term becomes the one-cell column 0, and the amount becomes a number |
| `ServingProperties.EmptyTermNotDefaulted` | app/main.py:54-66 | an empty term reaches transform as 0, not missing, so it is never defaulted to 360. EMI is then infinite, or NaN for a zero amount |
| `ServingProperties.EncodingEffect` | app/main.py:68-73 | a column with an encoder gets its codes when every text is known, and zeros when any one is not. A column without an encoder is unchanged |
| `ServingProperties.MissingFeatureIsError` | app/main.py:75 | a trained feature missing from the processed row ends the request with an error naming it, not with a zero-filled column |
| `ServingProperties.TrainedSchemaSelects` | src/train_model.py:28-45 | when the features are columns of a transformed training table, and the form carries every raw training column, selection succeeds |
| `ServingProperties.StatusAndConfidence` | app/main.py:79-100 | APPROVED exactly for label 1. The score is round(prob × 100, 2) for label 1 and round((1 − prob) × 100, 2) otherwise, so it lies in 0..100 for a probability in 0..1. The reported ratio is round(dti × 100, 1). With `PipelineDecides`, these are the rendered values of a successful request |
| `ServingProperties.PipelineDecides` | app/main.py:44-100 | when the coercion, the two raw parses, transform, selection and both classifier calls succeed, the request's result is `Decide` on that label and class-1 probability, with the ratio `FormDti` computed from the raw form |
| `ServingProperties.AdvicePriority` | app/main.py:84-94 | any label other than 0 gets the premier line. For 0, a zero credit history wins over a ratio above 0.4, which wins over the edge line. Only the two `float()` calls can raise |
| `ServingProperties.DtiAdviceFigure` | app/main.py:89-90 | the suggested income is within 0.5 of LoanAmount × 1000 / 0.3 / 12, and the line determines the figure |
| `ServingProperties.DtiHighIff` | app/main.py:60-63 | for a positive income, the ratio is above 0.4 exactly when the payment exceeds 0.4 × income. A non-positive income counts as 1 |
| `ServingProperties.ApprovedScenario` | app/main.py:79-100 | a form with income "5000" and loan "100", label 1 at 0.8, gives APPROVED, 80.0, the premier line and a ratio of 5.6 computed from the form's fields |
| `ServingProperties.CreditScenario` | app/main.py:79-100 | the same form with credit history "0", label 0 with class-1 probability 0.3, gives DECLINED, 70.0 and the credit line, before the ratio test |

## Left out

- Flask plumbing (the app object, routes, `render_template`, `request.form`). The form is a `map<string, string>`, and the rendered page is the `Decision` record.
- Loading the artifacts with `joblib` and the `sys.path` setup. The model, the encoders, the feature list and the preprocessor are parameters of `Predict`.
- src/train_model.py is not part of this model. CSV loading, encoder fitting and XGBoost training are library calls. Only its contract that the feature list is the training columns minus Loan_Status appears, as the preconditions of `TrainedSchemaSelects`.
- The classifier is opaque: two functions of the selected columns, each of which may raise. It need not return a label in {0, 1} or a probability in [0, 1]. `StatusAndConfidence` bounds the score only for a probability in [0, 1].
- `np.log`, `mode()[0]`, `median()` and a float's text under `astype(str)` are opaque fields of `Runtime`.
- Number parsing is also an opaque field of `Runtime`. `pd.to_numeric` and `float()` use the same parser and differ only in how a failure is handled (0 versus ValueError). Their differences on texts such as "nan", "inf" or numbers with surrounding spaces are not modelled.
- Floating point: numbers are exact reals. Both infinities are one non-finite value. `round` is exact half-even rounding of the real value, not of its binary approximation.
- Column order within a table. Every consumer looks columns up by name, and the classifier input is ordered by the feature list.
- `Error.Message` approximates some exception texts. KeyError, the two column-selection errors ("[…] not in index" and "None of [Index([…], dtype='object')] are in the [columns]"), float()'s ValueError and the empty mode's KeyError(0) follow Python and pandas for texts without quotes or backslashes and for short feature lists without duplicates. Three cases differ. float() quotes the rejected text with `repr`, so a text holding `'` is put in double quotes and a backslash is doubled, while `Message` always uses single quotes. pandas prints the Index of the "None of" error over several lines once it passes the 80-character display width, with `dtype='object'` on its own line, and `Message` keeps it on one line. pandas lists each absent name once in "[…] not in index", while `AbsentFeatures` keeps a name requested twice twice. The TypeError of `+`, `/` and `np.log` on text is shortened to "unsupported operand type(s) for" and the operator: Python's text also names the operand types, and str + number reads "can only concatenate str (not "int") to str". The median's TypeError is shortened to "Cannot convert LoanAmount to numeric": pandas' text quotes the column's values. So `Respond` and `Predict` give the right prefix and exception, but not always Python's exact words.
- Frames.AddCells: a NaN against text raises TypeError at the `+` of src/preprocessing.py:28. In pandas that pair gives NaN, and the request then raises at `np.log` of the object-dtype Total_Income column at src/preprocessing.py:36. Both raise TypeError, so only the failing line and the message differ.
- Column dtypes: an integer column is a column of numbers. The label encoders' codes are stored as numbers.
- Console `print` diagnostics and app/static/js/wizard.js (browser UI only).
