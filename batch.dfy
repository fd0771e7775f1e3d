/**
 * Bulk scoring of an uploaded file: load_csv and bulk_predict
 * (Tkinter/fraudDetector.py:259-313). Every row's order and customer identifiers are
 * checked first; a batch with any bad row is rejected as a whole with the list of
 * its spreadsheet row numbers, and only a clean batch is preprocessed and scored.
 */
module BatchGate {
  import opened Wrappers
  import opened Validators
  import opened Records
  import opened Preprocessing
  import Text

  /** The classifier: a feature row of the nineteen model columns to a label. */
  type Classifier = seq<real> -> int

  /** A row passes the gate when both of its identifiers are well formed. */
  predicate IdsValid(o: Order)
  {
    ValidateOrderId(o.orderId) && ValidateCustomerId(o.customerId)
  }

  predicate AllIdsValid(orders: seq<Order>)
  {
    forall i :: 0 <= i < |orders| ==> IdsValid(orders[i])
  }

  predicate StrictlyIncreasing(s: seq<nat>)
  {
    forall i, j :: 0 <= i < j < |s| ==> s[i] < s[j]
  }

  /**
   * `rows` lists, in increasing order, the spreadsheet row of every row that fails the
   * gate and nothing else. Row `idx` of the frame is spreadsheet row `idx + 2`: rows
   * count from 1 and row 1 is the header.
   */
  predicate InvalidRowList(orders: seq<Order>, rows: seq<nat>)
  {
    && StrictlyIncreasing(rows)
    && (forall n :: n in rows ==> 2 <= n < |orders| + 2 && !IdsValid(orders[n - 2]))
    && (forall i :: 0 <= i < |orders| && !IdsValid(orders[i]) ==> i + 2 in rows)
  }

  /** The gate loop: visit the rows in order and note the row number of each bad one. */
  method CollectInvalidRows(orders: seq<Order>) returns (invalid: seq<nat>)
    ensures InvalidRowList(orders, invalid)
  {
    invalid := [];
    for idx := 0 to |orders|
      invariant StrictlyIncreasing(invalid)
      invariant forall k :: 0 <= k < |invalid| ==> invalid[k] < idx + 2
      invariant forall n :: n in invalid ==> 2 <= n < idx + 2 && !IdsValid(orders[n - 2])
      invariant forall i :: 0 <= i < idx && !IdsValid(orders[i]) ==> i + 2 in invalid
    {
      if !IdsValid(orders[idx]) {
        invalid := invalid + [idx + 2];
      }
    }
  }

  /** The list is determined by the batch: the gate run twice on one batch reports the same rows. */
  lemma {:induction false} InvalidRowListUnique(orders: seq<Order>, a: seq<nat>, b: seq<nat>)
    requires InvalidRowList(orders, a) && InvalidRowList(orders, b)
    ensures a == b
  {
    SortedSameElements(a, b);
  }

  /** Two strictly increasing lists with the same elements are equal. */
  lemma {:induction false} SortedSameElements(a: seq<nat>, b: seq<nat>)
    requires StrictlyIncreasing(a) && StrictlyIncreasing(b)
    requires forall n :: n in a <==> n in b
    ensures a == b
  {
    assert a != [] ==> a[0] in a;
    assert b != [] ==> b[0] in b;
    if a != [] && b != [] {
      // The heads are both the least element.
      var j :| 0 <= j < |b| && b[j] == a[0];
      var i :| 0 <= i < |a| && a[i] == b[0];
      assert b[0] <= b[j] && a[0] <= a[i];
      forall n ensures n in a[1..] <==> n in b[1..] {
        if n in a[1..] {
          var k :| 1 <= k < |a| && a[k] == n;
          assert n in b && n != b[0];
        }
        if n in b[1..] {
          var k :| 1 <= k < |b| && b[k] == n;
          assert n in a && n != a[0];
        }
      }
      SortedSameElements(a[1..], b[1..]);
      assert a == [a[0]] + a[1..] && b == [b[0]] + b[1..];
    }
  }

  /** The gate passes exactly when no row fails it. */
  lemma EmptyListIffAllValid(orders: seq<Order>, rows: seq<nat>)
    requires InvalidRowList(orders, rows)
    ensures rows == [] <==> AllIdsValid(orders)
  {
    if rows != [] {
      assert rows[0] in rows;
    }
  }

  /** A batch with exactly one bad row is rejected with that one row number. */
  lemma SingleBadRow(orders: seq<Order>, k: nat, rows: seq<nat>)
    requires k < |orders| && !IdsValid(orders[k])
    requires forall i :: 0 <= i < |orders| && i != k ==> IdsValid(orders[i])
    requires InvalidRowList(orders, rows)
    ensures rows == [k + 2]
  {
    InvalidRowListUnique(orders, rows, [k + 2]);
  }

  /** One scored row: the order and the `is_fraud` label appended to it. */
  datatype ScoredOrder = ScoredOrder(order: Order, isFraud: int)

  /** What scoring a clean batch produces: each order with the label of its own feature row. */
  function Scores(orders: seq<Order>, model: Classifier): (results: seq<ScoredOrder>)
    ensures |results| == |orders|
    ensures forall i :: 0 <= i < |orders| ==> results[i].order == orders[i]
  {
    seq(|orders|, i requires 0 <= i < |orders| => ScoredOrder(orders[i], model(EncodeOrder(orders[i]))))
  }

  /** How a bulk upload ends. */
  datatype BulkOutcome =
    | NoFile                       // "Please upload a file first."
    | UnsupportedFormat            // "Invalid file format. Please upload CSV or XLSX."
    | ReadFailed                   // "Failed to load file: ..."
    | InvalidIds(rows: seq<nat>)   // "Invalid Order or Customer ID format at rows: ..."
    | ModelNotLoaded               // "Model is not loaded."
    | Scored(results: seq<ScoredOrder>)  // the results window

  /**
   * bulk_predict: no model, no scoring; otherwise the gate again, then preprocessing
   * and one label per row.
   */
  method BulkPredict(orders: seq<Order>, model: Option<Classifier>) returns (outcome: BulkOutcome)
    ensures model.None? ==> outcome == ModelNotLoaded
    ensures model.Some? && !AllIdsValid(orders) ==> outcome.InvalidIds? && InvalidRowList(orders, outcome.rows)
    ensures model.Some? && AllIdsValid(orders) ==> outcome == Scored(Scores(orders, model.value))
  {
    if model.None? {
      return ModelNotLoaded;
    }
    var invalid := CollectInvalidRows(orders);
    EmptyListIffAllValid(orders, invalid);
    if invalid != [] {
      return InvalidIds(invalid);
    }
    var features := PreprocessTestData(orders);
    var labels := seq(|features|, i requires 0 <= i < |features| => model.value(features[i]));
    outcome := Scored(seq(|orders|, i requires 0 <= i < |orders| => ScoredOrder(orders[i], labels[i])));
  }

  /** The two file formats the upload accepts. */
  datatype Format = Csv | Xlsx

  predicate EndsWith(s: string, suffix: string)
  {
    |suffix| <= |s| && s[|s| - |suffix|..] == suffix
  }

  /** The reader chosen by the path's extension, `.csv` tested first. */
  function FormatOf(path: string): (f: Option<Format>)
    ensures f == Some(Csv) <==> EndsWith(path, ".csv")
    ensures f == Some(Xlsx) <==> EndsWith(path, ".xlsx")
  {
    assert EndsWith(path, ".csv") ==> path[|path| - 1] == 'v';
    assert EndsWith(path, ".xlsx") ==> path[|path| - 1] == 'x';
    if EndsWith(path, ".csv") then Some(Csv)
    else if EndsWith(path, ".xlsx") then Some(Xlsx)
    else None
  }

  /**
   * load_csv: the path entry is stripped and must be non-empty and end in `.csv` or
   * `.xlsx`; the file is read with the matching reader (None when reading fails);
   * the gate runs; only a clean batch is announced as validated and handed to
   * bulk_predict. `read` stands for `pd.read_csv` / `pd.read_excel` on that path.
   */
  method LoadCsv(entry: string, read: (Format, string) -> Option<seq<Order>>, model: Option<Classifier>)
    returns (outcome: BulkOutcome, validated: bool)
    ensures Text.Strip(entry) == "" ==> outcome == NoFile && !validated
    ensures Text.Strip(entry) != "" && FormatOf(Text.Strip(entry)).None? ==> outcome == UnsupportedFormat && !validated
    ensures Text.Strip(entry) != "" && FormatOf(Text.Strip(entry)).Some? ==>
      var path := Text.Strip(entry);
      match read(FormatOf(path).value, path)
      case None => outcome == ReadFailed && !validated
      case Some(orders) =>
        && validated == AllIdsValid(orders)
        && (!AllIdsValid(orders) ==> outcome.InvalidIds? && InvalidRowList(orders, outcome.rows))
        && (AllIdsValid(orders) && model.None? ==> outcome == ModelNotLoaded)
        && (AllIdsValid(orders) && model.Some? ==> outcome == Scored(Scores(orders, model.value)))
  {
    validated := false;
    var path := Text.Strip(entry);
    if path == "" {
      return NoFile, false;
    }
    var format := FormatOf(path);
    if format.None? {
      return UnsupportedFormat, false;
    }
    var table := read(format.value, path);
    if table.None? {
      return ReadFailed, false;
    }
    var orders := table.value;
    var invalid := CollectInvalidRows(orders);
    EmptyListIffAllValid(orders, invalid);
    if invalid != [] {
      return InvalidIds(invalid), false;
    }
    validated := true;
    outcome := BulkPredict(orders, model);
  }

  /**
   * All or nothing: an upload is scored only when every row passes the gate, and then
   * every row gets a label. A rejected upload names exactly its bad rows.
   */
  lemma AllOrNothing(orders: seq<Order>, model: Classifier, outcome: BulkOutcome)
    requires !AllIdsValid(orders) ==> outcome.InvalidIds? && InvalidRowList(orders, outcome.rows)
    requires AllIdsValid(orders) ==> outcome == Scored(Scores(orders, model))
    ensures outcome.Scored? <==> AllIdsValid(orders)
    ensures outcome.Scored? ==> |outcome.results| == |orders|
    ensures outcome.InvalidIds? ==> outcome.rows != []
  {
    if outcome.InvalidIds? {
      EmptyListIffAllValid(orders, outcome.rows);
    }
  }

  /**
   * The check in bulk_predict repeats the one in load_csv on the same rows: after
   * load_csv's gate has passed, bulk_predict's gate finds nothing.
   */
  lemma SecondGateNeverFires(orders: seq<Order>, first: seq<nat>, second: seq<nat>)
    requires InvalidRowList(orders, first) && InvalidRowList(orders, second)
    requires first == []
    ensures second == []
  {
    InvalidRowListUnique(orders, first, second);
  }
}
