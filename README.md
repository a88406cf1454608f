# Online payment fraud detection: form lifecycle and feature preprocessing

The model covers the two pieces of sequential logic in the repository. The
project holds three Dafny modules.

- **`FrontendApp`** (`frontend_app.dfy`) models the single React component of
  the client. Its state has four parts:
  - the form: seven text fields, held as a `map<string, string>`;
  - the optional prediction result;
  - the loading flag;
  - the error message.

  `handleChange` is the pure update `SetField`. The payload built from the
  form is the pure function `BuildPayload`. `handleSubmit` is split at its
  first `await`, the one on `fetch`:
  - `BeginSubmit` is the part before the request: it raises the flag, clears
    the error and result, and builds the payload.
  - `Settle` is the `try/catch/finally` after the request settles. The
    second `await`, on `response.json()`, is inside it; a body that does not
    parse is the `BodyParseFail` outcome.

  `HandleSubmit` runs both parts with no edit in between. `PressSubmit` adds
  the two guards in front of `handleSubmit`: the `disabled={loading}` submit
  button, and the browser's checks of the `required` and `type="number"`
  inputs (`Submittable`), which block the form while a field is empty or
  its text is not a number. The network request is
  represented only by its `Outcome`: a parsed body, a status that is not ok, a
  rejected fetch, or a body that is not JSON.
- **`JsNumbers`** (`js_numbers.dfy`) holds the two ECMAScript conversions the
  payload uses, written out as total functions over strings. `parseInt` follows
  ECMA-262 section 19.2.5 with no radix argument: leading white space, a sign,
  a `0x` prefix, then the longest run of digits. `parseFloat` follows ECMA-262
  section 19.2.4: leading white space, a sign, `Infinity`, digits with a
  fraction and an exponent, and longest-prefix reading. Both return NaN, a
  finite value or an infinity. The finite value is an exact real.
- **`ModelUtils`** (`model_utils.dfy`) models `preprocess_input` of the scoring
  service as a method. The one-row DataFrame is a local `map<string, Value>`,
  updated column by column like `df`. The method then does two things: a loop
  adds every missing feature column as `0`, and a final selection returns the
  feature columns in the feature list's order.

## Model

| member | source | states |
|---|---|---|
| `JsNumbers.ParseInt` | frontend/src/App.js:38 | parseInt is total, and its result is NaN or a finite number, never an infinity |
| `JsNumbers.ParseFloat` | frontend/src/App.js:39-43 | parseFloat is total; its result is an infinity exactly when the text, after white space and sign, starts with `Infinity` |
| `JsNumbers.LeadingWhiteSpace` | frontend/src/App.js:38-43 | the leading run both parsers skip is all white space, and it stops at the first character that is not white space |
| `JsNumbers.LeadingDigits` | frontend/src/App.js:38-43 | the digits read are the longest prefix of radix digits: all digits, ending at the first non-digit |
| `JsNumbers.ParseIntOfDigits` | frontend/src/App.js:38 | a non-empty string of decimal digits gives parseInt its decimal value |
| `JsNumbers.ParseFloatOfDigits` | frontend/src/App.js:39-43 | a non-empty string of decimal digits gives parseFloat its decimal value |
| `JsNumbers.ParseFloatOfDecimal` | frontend/src/App.js:39-43 | `a.b` (digit strings, not both empty) gives parseFloat the value of `a` plus the value of `b` divided by 10 to the power of the length of `b` |
| `JsNumbers.NonNumericIsNaN` | frontend/src/App.js:38-43 | text that contains no decimal digit and no letter `I`, the empty text included, gives NaN for both parsers |
| `FrontendApp.InitialForm` | frontend/src/App.js:13-21 | the initial form has exactly the seven field names as keys, each mapped to the empty text |
| `FrontendApp.SetField` | frontend/src/App.js:26-28 | the named field gets the new text, every other field keeps its text, and the only key that can be added is the named one |
| `FrontendApp.BuildPayload` | frontend/src/App.js:36-45 | the payload has the form's keys; `step` is parseInt of its text, the five amounts and balances are parseFloat of theirs, and `type` and any other key are copied as text |
| `FrontendApp.NonNumericFieldIsNaN` | frontend/src/App.js:38-43 | a numeric field whose text contains no decimal digit and no letter `I` (the empty text included) becomes NaN in the payload; building the payload does not fail |
| `FrontendApp.IsValidFloatingPoint` | frontend/src/App.js:70-99 | the text a `type="number"` input accepts, the HTML valid floating-point number: an optional `-`, then integer digits, a point with fraction digits, or both (`5`, `5.5`, `.5`, not `5.` or `.`), then an optional exponent; accepted text is non-empty, starts without white space and contains a decimal digit |
| `FrontendApp.Submittable` | frontend/src/App.js:67-99 | the form passes the browser's checks: `step` and the five amounts and balances are valid floating-point numbers and `type` is one of the five payment types; then no required field is empty |
| `FrontendApp.ValidFloatingPointParseFloat` | frontend/src/App.js:39-43 | every text the browser accepts as a number, `.5` and `-.5e1` included, gives parseFloat a finite number |
| `FrontendApp.ValidFloatingPointParseInt` | frontend/src/App.js:38 | for text the browser accepts as a number, parseInt gives a finite number exactly when the text has digits before its point; `.0` and `.5` give NaN |
| `FrontendApp.SubmittedPayloadIsFinite` | frontend/src/App.js:36-45 | a form that passes the browser's checks yields a payload with finite amounts and balances, a `type` among the selector's options, and a `step` that is finite exactly when its text has digits before the point |
| `FrontendApp.DotZeroStepSendsNaN` | frontend/src/App.js:38 | a form the page submits, with `step` `.0` and every other number `1`, sends `step` as NaN, where the corrected coercion gives 0 |
| `FrontendApp.ExponentStepSendsOne` | frontend/src/App.js:38 | a form the page submits, with `step` `1e3` (the whole number 1000 to the browser and to parseFloat), sends `step` as 1, where the corrected coercion gives 1000 |
| `FrontendApp.Truncate` | frontend/src/App.js:38 | rounding toward zero, as parseInt does with a fraction: for `v >= 0` the result is the largest whole number not above `v`, for `v < 0` the smallest not below it, so a whole number is unchanged |
| `FrontendApp.WholeStepIsFinite` | frontend/src/App.js:38 | the corrected step coercion gives a finite whole number for every text the browser accepts, and agrees with parseInt on plain digit strings |
| `FrontendApp.InitialFormIsBlocked` | frontend/src/App.js:70 | the empty form of the first render does not pass the browser's checks, so pressing the button sends nothing |
| `FrontendApp.ApplyEditsKeys` | frontend/src/App.js:26-28 | any sequence of field edits leaves the keys as the original keys plus the names edited |
| `FrontendApp.FieldEditsKeepFields` | frontend/src/App.js:26-28 | edits that name only the seven fields keep the key set exactly the seven fields |
| `FrontendApp.ApplyEditsLastWins` | frontend/src/App.js:26-28 | after a sequence of edits, a field holds the value of the last edit that named it, or its original text if no edit named it |
| `FrontendApp.App.constructor` | frontend/src/App.js:13-24 | the first state is the initial form, no result, not loading, no error: the Idle phase |
| `FrontendApp.App.HandleChange` | frontend/src/App.js:26-28 | the form becomes `SetField` of the old form; result, loading and error are unchanged |
| `FrontendApp.App.BeginSubmit` | frontend/src/App.js:30-45 | before any outcome: loading is true, error is empty, result is null (the InFlight phase), the form is unchanged, and the payload is `BuildPayload` of the form |
| `FrontendApp.App.Settle` | frontend/src/App.js:47-60 | an ok response with a parsed body stores it as the result with the error still empty; a status that is not ok, a rejected fetch and an unparsable body all leave the result null and store the same fixed message; loading ends false on every path |
| `FrontendApp.App.HandleSubmit` | frontend/src/App.js:30-61 | a whole submission sends `BuildPayload` of the form and ends not loading, with the success or failure state decided by the outcome alone |
| `FrontendApp.App.PressSubmit` | frontend/src/App.js:67-103 | while loading the disabled button does nothing, and a form the browser's checks reject (a required field empty, a number input whose text is not a number, the type placeholder) is not submitted: nothing changes and nothing is sent; otherwise a submission begins with the current form's payload |
| `ModelUtils.WithDerived` | app/model_utils.py:12-17 | adding the derived columns adds exactly the six derived labels and leaves every other column of the record as it was |
| `ModelUtils.OneHotType` | app/model_utils.py:19 | one-hot encoding a one-row frame removes `type`, adds `type_<t>` set to true for the row's type `t`, and keeps every other column |
| `ModelUtils.EncodedDerivedColumns` | app/model_utils.py:12-17 | `deltaOrig = oldbalanceOrg - newbalanceOrig` and `deltaDest = newbalanceDest - oldbalanceDest`; `isOrigDrained` holds iff `oldbalanceOrg > 0` and `newbalanceOrig == 0`; `isDestUntouched` holds iff both destination balances are 0; `isMoneyMoved` holds iff `amount > 0`; `log_amount` is log1p of the amount |
| `ModelUtils.EncodedTypeColumns` | app/model_utils.py:19 | after encoding, the `type` column is gone, `type_<t>` is set for the row's type `t`, and every other column of the record is carried over unchanged |
| `ModelUtils.AlignColumns` | app/model_utils.py:21-24 | a loop adds each missing feature column as 0; the selection then yields exactly the feature list, in its order; a column the frame had keeps its value, and one it lacked is 0 |
| `ModelUtils.PreprocessInput` | app/model_utils.py:9-26 | the output columns are exactly the feature list, in its order, with no extras; a feature column present before alignment keeps its value, and one that is absent is 0 |

## Left out

- The `fetch` call, its URL, its headers and `JSON.stringify` (frontend/src/App.js:48-52) are network I/O. The model represents them only by the `Outcome` parameter of `Settle`. In particular, the model does not show that `JSON.stringify` turns a NaN field into `null`.
- JSX rendering, labels and styles (frontend/src/App.js:63-115) are left out. Two things from that markup are modelled: the `disabled={loading}` guard and the browser's constraint validation of the `required` and `type="number"` inputs (`Submittable`), which decide whether `PressSubmit` reaches `handleSubmit`.
- `FrontendApp.Submittable`, `FrontendApp.App.PressSubmit`: the browser's step check (`step="0.01"` on the amounts, the default step 1 on `step`) is not modelled. The inputs are React-controlled, and React writes the current value into the `value` attribute, which then serves as the step base, so the check usually passes; an amount like `1.234` is submitted. A stale attribute while an input keeps focus is not modelled.
- `FrontendApp.Submittable`: the browser's rejection of a value beyond the double range (`1e400`) is not modelled, nor its clearing of an input's value when its text is not a number; such text is simply not `Submittable`.
- The type selector restricts `type` to the empty placeholder or one of the values in `PaymentTypes`. `HandleChange` accepts any text for `type`, as `handleChange` does; the list is used by `Submittable`, because the `required` selector blocks the placeholder.
- `JsNumbers.ParseInt`, `JsNumbers.ParseFloat`: finite results are exact reals. Rounding to the nearest double is not modelled. So neither is overflow of large values to Infinity (`parseFloat("1e400")`), underflow of tiny values to 0 (`parseFloat("1e-400")`), nor the sign of `-0`.
- `np.log1p` (app/model_utils.py:12) is floating point. It is left uninterpreted as the function parameter `log1p`.
- `joblib.load` of the model and of the feature list (app/model_utils.py:6-7) is file I/O. The feature list is a parameter of `PreprocessInput`.
- The pandas DataFrame is seen only as a map from column label to cell. If an input key equals the `type_<t>` label that `get_dummies` creates, pandas keeps two columns with the same label; the map model keeps one.
- `ModelUtils.EncodedDerivedColumns`: cells are exact reals, so the float64 rounding of `deltaOrig` and `deltaDest` is not modelled (in Python `0.3 - 0.1` is `0.19999999999999998`; here it is exactly `0.2`).
- `ModelUtils.PreprocessInput` requires a textual `type` and the five amounts and balances as reals. This stands for the record the upstream schema delivers, with float and str fields; app/schema.py is not part of this model. pandas itself would also accept integer balances, and `get_dummies` would encode a non-text `type`; those inputs are not modelled. A missing column (a `KeyError`) or a text amount (a `TypeError` in `log1p`) makes pandas raise; the model does not represent these errors.
- The whole of app/main.py is left out: FastAPI routing, `print` logging, the `model.predict_proba` call, the `0.5` threshold and `round`. From it the model keeps only that `is_fraud` arrives as an integer (`Prediction.isFraud`); the model does not restrict it to the 0 or 1 the service sends.
- `HandleSubmit` runs a submission with no edit while the request is pending. Edits during the request are covered by calling `BeginSubmit`, `HandleChange` and `Settle` in turn, because `Settle` never touches the form.

## Findings

| source | as written | input that shows it | evidently intended | confidence | as-written member | corrected member |
|---|---|---|---|---|---|---|
| frontend/src/App.js:38 | `step` is read with `parseInt`, which needs a digit before the point, although the number input accepts a leading point | `step` `.0`, which the browser accepts as the whole number 0, is sent as NaN | the whole number the input holds, `Math.trunc(parseFloat(form.step))` (`WholeStep`), finite for every accepted text | not executed | `FrontendApp.DotZeroStepSendsNaN` | `FrontendApp.WholeStepIsFinite` |
| frontend/src/App.js:38 | `step` is read with `parseInt`, which stops at the first character that is not a digit, although the number input accepts an exponent | `step` `1e3`, which the browser accepts as the whole number 1000, is sent as 1 | the whole number the input holds, `Math.trunc(parseFloat(form.step))` (`WholeStep`), which gives 1000 | not executed | `FrontendApp.ExponentStepSendsOne` | `FrontendApp.WholeStepIsFinite` |

`App.BeginSubmit` keeps the coercion as written, since it models the page as
it is; `WholeStep` is the corrected step coercion, with its property proved
beside it. The two exhibits also state the value `WholeStep` gives each
input. So a finite `step` in `SubmittedPayloadIsFinite` is not always the
number the input holds.

## Notes on the source

- If `response.json()` fails, the same `catch` handles it (frontend/src/App.js:54-57), because that call is inside the `try`. So a malformed body also ends with the fixed failure message, and the model follows this.
- `parseInt` is called without a radix (frontend/src/App.js:38). So a `step` text beginning with `0x` is read as hexadecimal, not as base 10; `JsNumbers.ParseInt` models this.
- The service returns `is_fraud` as the integer 0 or 1, not as a boolean (app/main.py:19-22), and the page shows "Yes" for any truthy value. `Prediction` models it as an integer.
