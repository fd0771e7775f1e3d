# Suspicious order detector — verified model of the core

This project models the decision logic of the Tkinter "Suspicious Order Detector"
(`Tkinter/fraudDetector.py`). It covers what happens to an order between the input and
the model's verdict:

- **Field validators.** These are the four checks on order ID, customer ID, integer
  counts and decimal amounts. The regular expressions are modelled as a small regex
  datatype with full-match semantics. Python's `$` is modelled exactly: it also matches
  just before one final newline.
- **Single-order validation.** The thirteen entries are stripped and walked in the fixed
  field order. Each field gives at most one message from its `if/elif` chain, and the
  messages are accumulated. `single_predict` and `validate_and_predict` share this
  validation. In `single_predict` a clean form is converted with `int(...)`/`float(...)`,
  preprocessed as a one-row batch and scored. The label is then mapped to the verdict text.
- **Bulk upload gate.** `load_csv` strips the path, checks the extension and reads the
  file. It then checks every row's order ID and customer ID and collects the spreadsheet
  row numbers (`idx + 2`) of the bad ones. Any bad row rejects the whole batch.
  `bulk_predict` repeats the same gate and then scores every row.
- **Feature preprocessing.** `preprocess_test_data` is modelled over a data frame, a map
  from column name to column values. It takes the eight numeric columns and adds
  `pd.get_dummies` indicators only for the values that occur in the batch. It zero-fills
  every required column that is still missing and projects onto the model's 19
  `required_columns`. The proved result is that each order's feature row is a fixed
  function of that order alone: the numeric fields, then one 0/1 indicator per encoded
  dropdown value. Other orders in the batch do not affect it.
- **Result pagination.** `show_results` shows 20 rows per page. `total_pages` is the
  ceiling of `n / 20`. The page counter, `load_page` and the guarded previous/next
  buttons are modelled as a class.
- **The verdict mapping.** Label 1 shows "Suspicious Order Detected!"; any other label
  shows "Order Appears Safe".

Modules, one per concern:

| Module | File | Contents |
|---|---|---|
| `Validators` | `validators.dfy` | The validators and their characterisation. |
| `Text` | `text.dfy` | `str.strip()`. |
| `Conversion` | `conversion.dfy` | `int()` and `float()` on validated text. |
| `Records` | `records.dfy` | Fields, the form, the error list and the typed order. |
| `Preprocessing` | `preprocess.dfy` | The feature pipeline. |
| `BatchGate` | `batch.dfy` | `load_csv` and `bulk_predict`. |
| `Detector` | `detector.dfy` | `single_predict`, `validate_and_predict` and the verdict. |
| `Pagination` | `pagination.dfy` | The results window. |
| `Wrappers` | `wrappers.dfy` | The `Option` type. |

How outside pieces are handled:

- **Classifier.** The trained classifier is a parameter of type `seq<real> -> int`.
  `None` stands for a model that failed to load.
- **File readers.** `pd.read_csv` and `pd.read_excel` are a parameter that returns the
  table's rows, or `None` when reading raises.
- **Dialogs.** Message boxes become outcome values.

Two details of the code the model follows:

- The order-ID message asks for `'xxxxx-xxxxx'`, but `validate_order_id` enforces four
  characters, a hyphen and four characters. The model follows the validator.
- The validators also accept one trailing newline, because of how Python's `$` works.
  The form flows strip their input first, and `Detector.StrippedEntryShapes` proves the
  allowance never matters there. The bulk gate does not strip, so the allowance is kept.

## Model

| member | source | states |
|---|---|---|
| `Validators.PyMatch` | Tkinter/fraudDetector.py:43-53 | `re.match` with `^...$`: a full match of the whole string, or of the string without one final newline, which Python's `$` lets through. It carries no contract of its own; the validators' contracts characterise it for each pattern. |
| `Validators.ValidateOrderId` | Tkinter/fraudDetector.py:43-44 | Accepts exactly four ASCII letters/digits, `-`, four ASCII letters/digits, optionally followed by one final newline (Python `$`). |
| `Validators.ValidateCustomerId` | Tkinter/fraudDetector.py:46-47 | Accepts exactly eight ASCII letters/digits, optionally followed by one final newline. |
| `Validators.ValidateInteger` | Tkinter/fraudDetector.py:49-50 | `isdigit` accepts exactly the entries that have the decimal shape of `validate_float` and no point; unlike the regular expressions it lets no final newline through. |
| `Validators.ValidateFloat` | Tkinter/fraudDetector.py:52-53 | Accepts exactly: one or more digits, optionally `.` and one or two digits, optionally one final newline. |
| `Validators.OrderIdPatternMatches` | Tkinter/fraudDetector.py:44 | The order-ID regular expression fully matches a string iff the string has the 4-hyphen-4 alphanumeric shape. |
| `Validators.RepeatMatches` | Tkinter/fraudDetector.py:44-47 | `[a-zA-Z0-9]{n}` fully matches exactly the strings of n characters of the class (by induction on n). |
| `Validators.PlusMatches` | Tkinter/fraudDetector.py:53 | `\d+` fully matches exactly the non-empty all-digit strings (by induction on the string). |
| `Validators.FractionMatches` | Tkinter/fraudDetector.py:53 | `\.\d{1,2}` fully matches exactly `.` followed by one or two digits. |
| `Validators.DecimalPatternMatches` | Tkinter/fraudDetector.py:53 | The decimal regular expression fully matches a string iff the string has the decimal shape. |
| `Validators.DecimalMatchHasShape` | Tkinter/fraudDetector.py:53 | Every full match of the decimal expression has the decimal shape. |
| `Validators.DecimalShapeMatches` | Tkinter/fraudDetector.py:53 | Every string of decimal shape is fully matched by the decimal expression. |
| `Validators.IntegerIsDecimal` | Tkinter/fraudDetector.py:49-53 | Every string `validate_integer` accepts is also accepted by `validate_float`. |
| `Validators.IdentifierExamples` | Tkinter/fraudDetector.py:43-47 | `AB12-cd34` and `CUST0001` are accepted; `AB12cd34`, `AB1-cd345` and `CUST001` are rejected. |
| `Validators.NumberExamples` | Tkinter/fraudDetector.py:49-53 | `12` and `12.5` are decimals; `12.555`, `12.`, `.5` and `-1.5` are not; `""`, `-1` and `1.0` are not integers. |
| `Text.TrimStart` | Tkinter/fraudDetector.py:323 | The result is a suffix of the input. Everything removed is whitespace, and the result is empty or starts with a non-space. |
| `Text.TrimEnd` | Tkinter/fraudDetector.py:323 | The result is a prefix of the input. Everything removed is whitespace, and the result is empty or ends with a non-space. |
| `Text.Strip` | Tkinter/fraudDetector.py:323 | The result is the slice of the input that drops exactly the leading and trailing whitespace (Python's `isspace` set). |
| `Text.StripUnique` | Tkinter/fraudDetector.py:323 | Any slice with whitespace-only ends and non-space boundaries is the stripped string, so `strip` is characterised uniquely. |
| `Text.StripIdempotent` | Tkinter/fraudDetector.py:323 | Stripping twice equals stripping once. |
| `Text.StripNoFinalNewline` | Tkinter/fraudDetector.py:323 | A stripped string never ends in a newline. |
| `Conversion.ParseInteger` | Tkinter/fraudDetector.py:347-348 | `int()` of an all-digit string is a natural number below 10 to the string's length. |
| `Conversion.ParseIntegerConcat` | Tkinter/fraudDetector.py:348 | The value of a concatenation of digit strings is the value of the first part shifted by the length of the second, plus the value of the second. |
| `Conversion.LeadingZero` | Tkinter/fraudDetector.py:348 | A leading zero does not change the value. |
| `Conversion.DecimalBody` | Tkinter/fraudDetector.py:350-351 | The text `float()` reads is the validated entry without its optional final newline, and it has the decimal shape. |
| `Conversion.Hundredths` | Tkinter/fraudDetector.py:350-351 | The amount's digits with the point removed, padded to two decimals, are all digits. |
| `Conversion.ParseDecimal` | Tkinter/fraudDetector.py:350-351 | `float()` of a validated amount is non-negative, and 100 times it is the whole number of hundredths the text spells. |
| `Conversion.HundredthsValue` | Tkinter/fraudDetector.py:350-351 | The hundredths of a whole, a one-decimal and a two-decimal amount are 100·whole, 100·whole + 10·tenths, and 100·whole + fraction. |
| `Conversion.IntegerAsDecimal` | Tkinter/fraudDetector.py:347-351 | An integer entry read as a decimal has the same value as read as an integer. |
| `Records.Position` | Tkinter/fraudDetector.py:25-31 | Each field has an index in `fields`, and `fields` holds that field there. |
| `Records.PositionInverse` | Tkinter/fraudDetector.py:25-31 | The field at each index of `fields` has that index, so the thirteen fields are distinct. |
| `Records.FieldError` | Tkinter/fraudDetector.py:327-339 | A field gets no message iff its entry is non-empty and passes its kind's validator. The message is about that field. An empty entry always gets "cannot be empty", and a non-empty categorical entry never gets a message. |
| `Records.FieldErrors` | Tkinter/fraudDetector.py:327-339 | Each field contributes at most one message. |
| `Records.ValidateForm` | Tkinter/fraudDetector.py:326-339 | The loop over `fields` builds exactly the error list `Errors(form)`. |
| `Records.StripAll` | Tkinter/fraudDetector.py:323 | Every entry the validators see is that field's entry with `strip()` applied. |
| `Records.StripAllIdempotent` | Tkinter/fraudDetector.py:323 | Stripping the collected entries a second time changes nothing. |
| `Records.Errors` | Tkinter/fraudDetector.py:326-339 | The `errors` list holds at most thirteen messages, one per field at most; its own contract states the bound, and `Records.ErrorsUpToOrdered` proves the one-per-field order. |
| `Records.ErrorsUpToSound` | Tkinter/fraudDetector.py:326-339 | Every collected message is the if/elif chain's message for one of the fields walked so far. |
| `Records.ErrorsUpToOrdered` | Tkinter/fraudDetector.py:326-339 | Messages appear in the order of `fields`, at most one per field. |
| `Records.ErrorsUpToComplete` | Tkinter/fraudDetector.py:326-339 | Every walked field whose chain gives a message contributes that message. |
| `Records.ErrorsExact` | Tkinter/fraudDetector.py:326-339 | The error list holds exactly the chain message of every failing field and nothing else. |
| `Records.ErrorsEmptyIffValid` | Tkinter/fraudDetector.py:326-343 | The error list is empty iff every entry is non-empty and every numeric or ID entry passes its validator. |
| `Records.EmptyReported` | Tkinter/fraudDetector.py:328-329 | An empty entry is reported as empty, and with no format message. |
| `Records.CategoricalOnlyEmpty` | Tkinter/fraudDetector.py:327-339 | Categorical fields never get a format message (membership in the dropdown list is not checked). |
| `Records.CountFieldsAreCounts` | Tkinter/fraudDetector.py:347 | The fields the `int()` loop converts are exactly the whole-number fields. |
| `Records.ConvertCounts` | Tkinter/fraudDetector.py:347-348 | The `int()` loop gets through exactly when no count entry has more than 4300 digits, CPython's default limit for converting text to `int`. |
| `Records.ToOrder` | Tkinter/fraudDetector.py:346-351 | Converting a valid form whose count entries `int()` accepts keeps the text fields and gives non-negative counts and amounts. |
| `Preprocessing.EncodeOrder` | Tkinter/fraudDetector.py:238-256 | An order's feature row has one entry per required column, 19 in all. |
| `Preprocessing.ColumnValues` | Tkinter/fraudDetector.py:223-236 | A column of the batch has one value per order. |
| `Preprocessing.Zeros` | Tkinter/fraudDetector.py:254 | A zero-filled column has one 0 per row. |
| `Preprocessing.FillMissing` | Tkinter/fraudDetector.py:252-254 | After the loop the frame has exactly its old columns plus the required ones. Old columns are unchanged, and every added column is all zeros. |
| `Preprocessing.Select` | Tkinter/fraudDetector.py:256 | The projection has one row per order and one value per required column, taken from that column. |
| `Preprocessing.PreprocessTestData` | Tkinter/fraudDetector.py:217-257 | The output has one row per order, and row i is exactly `EncodeOrder(orders[i])`, whatever the other orders are. |
| `Preprocessing.RequiredColumnsWellFormed` | Tkinter/fraudDetector.py:227-250 | There are 19 required columns. The first eight are `numerical_columns` in order, and the rest are indicators. |
| `Preprocessing.NumericNamesDistinct` | Tkinter/fraudDetector.py:227-231 | The eight numeric column names are distinct. |
| `Preprocessing.DummyNamesDistinct` | Tkinter/fraudDetector.py:223-225 | Within a group, different values give different indicator names. |
| `Preprocessing.NamesSeparate` | Tkinter/fraudDetector.py:223-236 | Indicator names of different groups differ from each other and from every numeric column name, so the concatenation never overwrites a column. |
| `Preprocessing.NumericFrame` | Tkinter/fraudDetector.py:227-234 | The eight numeric columns of the batch; it carries no contract of its own, and `Preprocessing.NumericFrameLookup` states its columns and values. |
| `Preprocessing.GetDummies` | Tkinter/fraudDetector.py:223-225 | One indicator column `{prefix}_{value}` per value that occurs in the batch; it carries no contract of its own, and `Preprocessing.DummiesLookup` states its columns and values. |
| `Preprocessing.Combined` | Tkinter/fraudDetector.py:233-236 | The numeric columns side by side with the three sets of indicators; it carries no contract of its own, and `Preprocessing.CombinedColumn` states its columns and values. |
| `Preprocessing.NumericFrameLookup` | Tkinter/fraudDetector.py:227-234 | The numeric frame holds exactly the eight numeric columns, each with its values. |
| `Preprocessing.DummyFrameKeys` | Tkinter/fraudDetector.py:223-225 | Every indicator column is named after one of the values it was built from. |
| `Preprocessing.DummiesLookup` | Tkinter/fraudDetector.py:223-225 | `get_dummies` of a group has a column exactly for each value occurring in the batch, holding that value's 0/1 indicators. |
| `Preprocessing.CombinedColumn` | Tkinter/fraudDetector.py:233-236 | The concatenated frame has every numeric column, and an indicator column iff its value occurs, each with the right values. |
| `Preprocessing.RequiredColumnFilled` | Tkinter/fraudDetector.py:252-254 | After zero-filling, every required column holds that column's values for the batch. A missing indicator is all zeros because no row has its value. |
| `Preprocessing.RowsAreEncodings` | Tkinter/fraudDetector.py:256 | A matrix whose columns are the required columns of the batch has each order's feature row as its row. |
| `Preprocessing.NumericCopied` | Tkinter/fraudDetector.py:227-241 | The first eight features are the order's numeric fields, unchanged. |
| `Preprocessing.GroupColumns` | Tkinter/fraudDetector.py:238-250 | The indicators of each group sit together in the required columns, in the order of that group's encoded values. |
| `Preprocessing.Indicators` | Tkinter/fraudDetector.py:223-250 | A group's slice of the feature row has one entry per encoded value: 1 where the order's value equals it, else 0. |
| `Preprocessing.IndicatorsAt` | Tkinter/fraudDetector.py:223-250 | Entry k of a group's slice of the feature row is 1 iff the order's value is the group's k-th encoded value. |
| `Preprocessing.OneHot` | Tkinter/fraudDetector.py:223-250 | At most one indicator per group is set, and one is set iff the order's value has a column. |
| `Preprocessing.UnencodedAllZero` | Tkinter/fraudDetector.py:223-250 | An order whose value has no column (the reference option or any unlisted value) has all of that group's indicators zero. |
| `Preprocessing.ReferenceIsTheDroppedOption` | Tkinter/fraudDetector.py:33-39 | Of each dropdown's options, exactly `BD`, `delivery` and `Buy Now, Pay Later` lack a column, and every encoded value is an option. |
| `BatchGate.CollectInvalidRows` | Tkinter/fraudDetector.py:275-278 | The gate's list holds, in strictly increasing order, `idx + 2` for exactly the rows whose order ID or customer ID fails. |
| `BatchGate.IdsValid` | Tkinter/fraudDetector.py:277 | The gate's condition on one row: both identifiers pass their validators. It carries no contract of its own; `BatchGate.EmptyListIffAllValid` and `Detector.ValidFormPassesGate` state what it decides. |
| `BatchGate.InvalidRowListUnique` | Tkinter/fraudDetector.py:275-304 | That list is determined by the batch, so running the gate twice on one batch gives the same list. |
| `BatchGate.SortedSameElements` | Tkinter/fraudDetector.py:275-278 | Two strictly increasing lists with the same elements are equal. |
| `BatchGate.EmptyListIffAllValid` | Tkinter/fraudDetector.py:280-282 | The gate's list is empty iff every row passes both ID checks. |
| `BatchGate.SingleBadRow` | Tkinter/fraudDetector.py:275-282 | A batch whose only bad row is row k is rejected with exactly `[k + 2]`. |
| `BatchGate.Scores` | Tkinter/fraudDetector.py:307-308 | Scoring keeps every order in place and appends one label per order. |
| `BatchGate.BulkPredict` | Tkinter/fraudDetector.py:290-313 | With no model nothing is checked or scored. With a bad row the outcome is the exact bad-row list. Otherwise every order is labelled by the model on its own feature row. |
| `BatchGate.FormatOf` | Tkinter/fraudDetector.py:266-271 | The CSV reader is chosen iff the path ends in `.csv`, and the Excel reader iff it ends in `.xlsx`. |
| `BatchGate.LoadCsv` | Tkinter/fraudDetector.py:259-288 | An empty stripped path, an unknown extension and a failed read each end the upload. Otherwise the batch is announced as validated iff every row passes the gate. A rejected batch reports its exact bad rows, and a validated one goes to `bulk_predict`. |
| `BatchGate.AllOrNothing` | Tkinter/fraudDetector.py:275-310 | An upload is scored iff every row passes the gate, and then every row is labelled. A rejection always names at least one row. |
| `BatchGate.SecondGateNeverFires` | Tkinter/fraudDetector.py:297-304 | Once the gate in `load_csv` has passed, the gate in `bulk_predict` finds nothing. |
| `Detector.Verdict` | Tkinter/fraudDetector.py:359 | "Suspicious Order Detected!" iff the label is 1, "Order Appears Safe" otherwise. |
| `Detector.SinglePredict` | Tkinter/fraudDetector.py:316-364 | With no model the outcome is "not loaded". Otherwise the stripped form is rejected iff it is invalid, with exactly its error list. A valid form is predicted iff every count entry converts; one with a count entry over 4300 digits ends in the conversion failure. A prediction is the model's label on the order's feature row with the matching verdict. |
| `Detector.ValidateAndPredict` | Tkinter/fraudDetector.py:368-387 | Accepts iff the stripped form is valid, and otherwise rejects with exactly the same error list as `single_predict`. |
| `Detector.StrippedEntryShapes` | Tkinter/fraudDetector.py:323-339 | On stripped entries, the ID and amount validators accept exactly their shapes; the trailing-newline allowance of `$` never applies. |
| `Detector.StrippedFormValid` | Tkinter/fraudDetector.py:323-343 | A form passes validation iff every stripped entry is non-empty and has its field's shape. |
| `Detector.SingleAgreesWithBatch` | Tkinter/fraudDetector.py:307-359 | Given the outcomes `SinglePredict` and `BulkPredict` promise with the same model: a valid form's order passes the upload's identifier check, and at any position of a clean batch it gets the label single_predict reports. |
| `Detector.ValidFormPassesGate` | Tkinter/fraudDetector.py:277 | An order built from a form the validators accept passes the upload's identifier check. |
| `Pagination.TotalPages` | Tkinter/fraudDetector.py:412-413 | `total_pages` is the ceiling of n/20: the least t with 20·t ≥ n, and 0 only for no rows. |
| `Pagination.PageStart` | Tkinter/fraudDetector.py:438 | `start_idx` of page p is the multiple of 20 with quotient p-1. |
| `Pagination.PageEnd` | Tkinter/fraudDetector.py:439 | `end_idx` is the smaller of `start_idx + 20` and the row count. |
| `Pagination.PageRows` | Tkinter/fraudDetector.py:435-443 | Page p shows at most 20 rows, namely the rows from index (p-1)·20 up to min(p·20, n). |
| `Pagination.PageBounds` | Tkinter/fraudDetector.py:437-439 | Every reachable page lies inside the rows, is non-empty when there are rows, and is full except possibly the last. |
| `Pagination.PageOf` | Tkinter/fraudDetector.py:412-439 | Row i lies within the index range of page i div 20 + 1. |
| `Pagination.PageOfUnique` | Tkinter/fraudDetector.py:412-439 | The page showing row i is unique and is a page the counter can reach. |
| `Pagination.PagesUpToPrefix` | Tkinter/fraudDetector.py:435-443 | Pages 1..k shown in turn are exactly the rows before the end of page k (by induction on k). |
| `Pagination.PagesPartition` | Tkinter/fraudDetector.py:412-443 | Pages 1..`total_pages` together show every row exactly once, in order. |
| `Pagination.ResultsView.constructor` | Tkinter/fraudDetector.py:412-479 | The window opens on page 1, showing that page. |
| `Pagination.ResultsView.LoadPage` | Tkinter/fraudDetector.py:435-443 | The table is cleared and refilled with exactly the current page's rows; the counter is unchanged. |
| `Pagination.ResultsView.PrevPage` | Tkinter/fraudDetector.py:464-467 | Moves back one page iff the page is above 1, otherwise changes nothing. The counter stays in range and the table shows the current page. |
| `Pagination.ResultsView.NextPage` | Tkinter/fraudDetector.py:469-472 | Moves on one page iff the page is below `total_pages`, otherwise changes nothing. The counter stays in range and the table shows the current page. |

## Left out

- The Tkinter window, styles, notebook, form widgets, file dialog, Treeview columns and headings, and scrollbars are user-interface plumbing.
- Message boxes are not modelled; outcome values stand in for them. The exact wording of the messages (for example the `.title()` of field names) is also not modelled. Each message is a `ValidationError` value naming its field and its kind.
- Loading the model with `joblib` is not modelled. The model is a parameter that is absent when loading failed.
- `model.predict` is taken to label each feature row on its own, as a function of that row. The labels are any integers, not only 0 and 1.
- `pd.read_csv`, `pd.read_excel` and the dask `.compute()` branch are not modelled. Reading is a parameter that yields the rows or fails.
- Cells of an uploaded file are taken to be already typed as an `Order`. pandas type inference and `str(...)` of non-text cells are not modelled. `str(...)` raises nothing: an empty ID cell becomes `'nan'`, and a numeric one becomes its number text, so a customer ID such as `00001234` read as the integer 1234 fails the row check and the row is reported as a bad row. Four kinds of file raise instead. The model has no outcome for the first three; for the fourth it gives `Scored([])`:
  - a missing column raises a `KeyError` in the row check (line 277) or in preprocessing;
  - a header that is not text, such as a column headed `2024` in a spreadsheet, makes `col.replace` raise at line 432, after scoring;
  - a non-numeric cell in a count or amount column (`abc`, `1,234`) passes the row check, which looks only at the two identifiers, and then makes `model.predict` raise at line 308;
  - a file with a header and no rows passes the row check and then makes `model.predict` raise at line 308 on zero rows, where the model gives `Scored([])`.
  These errors reach the `except Exception` handlers at lines 287 and 312, which report a failure. Extra columns with text headers raise nothing; they are carried into the results table.
- The catch-all exception handlers are modelled only where the modelled steps can fail: `int()` on a count entry of more than 4300 digits ends `Detector.SinglePredict` in `ConversionFailed`. That limit is CPython's default since 3.11 (and in the 3.7 to 3.10 security releases); it can be changed with `sys.set_int_max_str_digits`, which the model does not follow. The other failures listed here (non-ASCII digits, unusual upload files) have no outcome in the model.
- Python's `str.isdigit` and `\d` also accept non-ASCII digits. The model accepts only `'0'..'9'`. So an entry such as a superscript two, which `isdigit` accepts and `int()` then rejects (raising inside `single_predict`), is not modelled.
- Float rounding is not modelled. `float(...)` is the exact rational value the text spells (`Conversion.ParseDecimal`), and the features are exact reals.
- `get_dummies` produces boolean columns and zero-filling produces integer ones. The model uses the reals 1 and 0 for both.
- The first `load_page` call runs after the window is built; the constructor does both at once.
- `Records.ToOrder`: its contract states only that the text fields are kept and the numbers are non-negative. The exact values are those of `Conversion.ParseInteger` and `Conversion.ParseDecimal`, whose contracts state what they are.
