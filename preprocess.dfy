/**
 * preprocess_test_data (Tkinter/fraudDetector.py:217-257): one-hot encoding of the three
 * dropdown fields, selection of the eight numeric columns, zero-filling of the feature
 * columns no row produced, and projection onto the model's fixed feature list.
 *
 * A data frame is modelled as a map from column name to the column's values, one per row.
 */
module Preprocessing {
  import opened Records

  /** The three one-hot encoded fields. */
  datatype Group = Country | Collect | Payment

  function GroupField(g: Group): Field
  {
    match g
    case Country => CountryCode
    case Collect => CollectType
    case Payment => PaymentGroup
  }

  function GroupValue(o: Order, g: Group): string
  {
    match g
    case Country => o.countryCode
    case Collect => o.collectType
    case Payment => o.paymentGroup
  }

  /** `dropdown_options`: the values the form offers for each dropdown field. */
  function Options(g: Group): seq<string>
  {
    match g
    case Country => ["PH", "BD", "MY", "PK", "TH"]
    case Collect => ["delivery", "pickup"]
    case Payment => [
      "Credit/Debit Card Payments", "Cash/Alternative Payments", "Digital Wallets",
      "Online Banking", "Preloaded Balance", "Buy Now, Pay Later", "Other Payment Gateways"]
  }

  /** The values of a group that have a column in the model's feature list, in that list's order. */
  function Encoded(g: Group): seq<string>
  {
    match g
    case Country => ["MY", "PH", "PK", "TH"]
    case Collect => ["pickup"]
    case Payment => [
      "Cash/Alternative Payments", "Credit/Debit Card Payments", "Digital Wallets",
      "Online Banking", "Other Payment Gateways", "Preloaded Balance"]
  }

  /** The option of each group that has no column: it is encoded as all indicators zero. */
  function Reference(g: Group): string
  {
    match g
    case Country => "BD"
    case Collect => "delivery"
    case Payment => "Buy Now, Pay Later"
  }

  /** `numerical_columns`: the eight fields copied into the features unchanged. */
  const NumericalColumns: seq<Field> := [
    NumOrders, NumCancelledOrders, NumRefundOrders, TotalPayment,
    NumAssociatedCustomers, OrderValue, NumItemsOrdered, RefundValue
  ]

  predicate IsNumeric(f: Field) { KindOf(f) == Count || KindOf(f) == Money }

  /** The value of a numeric field of an order, as a feature. */
  function NumericValue(o: Order, f: Field): real
    requires IsNumeric(f)
  {
    match f
    case NumOrders => o.numOrders as real
    case NumCancelledOrders => o.numCancelledOrders as real
    case NumRefundOrders => o.numRefundOrders as real
    case TotalPayment => o.totalPayment
    case NumAssociatedCustomers => o.numAssociatedCustomers as real
    case OrderValue => o.orderValue
    case NumItemsOrdered => o.numItemsOrdered as real
    case RefundValue => o.refundValue
  }

  /** A feature column: a numeric field, or the indicator `{field}_{value}` of a dropdown value. */
  datatype Column = Raw(field: Field) | Dummy(group: Group, value: string)

  predicate WellFormed(c: Column) { c.Raw? ==> IsNumeric(c.field) }

  /** The prefix `pd.get_dummies` gives the indicators of a group: the field's name and `_`. */
  function Prefix(g: Group): string { Name(GroupField(g)) + "_" }

  function ColumnName(c: Column): string
  {
    match c
    case Raw(f) => Name(f)
    case Dummy(g, v) => Prefix(g) + v
  }

  /** The model's feature columns, in the model's order. */
  const RequiredColumns: seq<Column> := [
    Raw(NumOrders), Raw(NumCancelledOrders), Raw(NumRefundOrders), Raw(TotalPayment),
    Raw(NumAssociatedCustomers), Raw(OrderValue), Raw(NumItemsOrdered), Raw(RefundValue),
    Dummy(Country, "MY"), Dummy(Country, "PH"), Dummy(Country, "PK"), Dummy(Country, "TH"),
    Dummy(Collect, "pickup"),
    Dummy(Payment, "Cash/Alternative Payments"), Dummy(Payment, "Credit/Debit Card Payments"),
    Dummy(Payment, "Digital Wallets"), Dummy(Payment, "Online Banking"),
    Dummy(Payment, "Other Payment Gateways"), Dummy(Payment, "Preloaded Balance")
  ]

  /** `required_columns`: the names of the model's feature columns. */
  const RequiredNames: seq<string> := seq(|RequiredColumns|, j requires 0 <= j < |RequiredColumns| => ColumnName(RequiredColumns[j]))

  /** The feature value of one order in one column: the field itself, or a 0/1 indicator. */
  function Cell(o: Order, c: Column): real
    requires WellFormed(c)
  {
    match c
    case Raw(f) => NumericValue(o, f)
    case Dummy(g, v) => if GroupValue(o, g) == v then 1.0 else 0.0
  }

  /** The feature row of one order: its value in every required column, in order. */
  function EncodeOrder(o: Order): (x: seq<real>)
    ensures |x| == |RequiredColumns|
  {
    seq(|RequiredColumns|, j requires 0 <= j < |RequiredColumns| => Cell(o, RequiredColumns[j]))
  }

  // ---------------------------------------------------------------------------
  // The data-frame computation

  type Frame = map<string, seq<real>>

  /** The values of a column over a batch of orders. */
  function ColumnValues(orders: seq<Order>, c: Column): (col: seq<real>)
    requires WellFormed(c)
    ensures |col| == |orders|
  {
    seq(|orders|, i requires 0 <= i < |orders| => Cell(orders[i], c))
  }

  function Zeros(n: nat): (z: seq<real>)
    ensures |z| == n && forall i :: 0 <= i < n ==> z[i] == 0.0
  {
    seq(n, _ => 0.0)
  }

  /** `X_test_processed[numerical_columns]` */
  function NumericFrame(orders: seq<Order>): Frame
  {
    NumericNamesDistinct();
    map f | f in NumericalColumns :: Name(f) := ColumnValues(orders, Raw(f))
  }

  /** The values of a dropdown field that occur in the batch. */
  function Observed(orders: seq<Order>, g: Group): set<string>
  {
    set i | 0 <= i < |orders| :: GroupValue(orders[i], g)
  }

  /** One indicator column `{field}_{value}` for each of `values`. */
  function DummyFrame(orders: seq<Order>, g: Group, values: set<string>): Frame
  {
    DummyNamesDistinct();
    map v | v in values :: ColumnName(Dummy(g, v)) := ColumnValues(orders, Dummy(g, v))
  }

  /** `pd.get_dummies(column, prefix=...)`: one indicator column per value that occurs. */
  function GetDummies(orders: seq<Order>, g: Group): Frame
  {
    DummyFrame(orders, g, Observed(orders, g))
  }

  /** `pd.concat([...], axis=1)` of the numeric columns and the three sets of indicators. */
  function Combined(orders: seq<Order>): Frame
  {
    NumericFrame(orders) + GetDummies(orders, Country) + GetDummies(orders, Collect) + GetDummies(orders, Payment)
  }

  /** The zero-filling loop: every required column missing from `frame` is added as zeros. */
  method FillMissing(frame: Frame, columns: seq<string>, rows: nat) returns (filled: Frame)
    ensures forall n :: n in filled <==> n in frame || n in columns
    ensures forall n :: n in frame ==> filled[n] == frame[n]
    ensures forall n :: n in filled && n !in frame ==> filled[n] == Zeros(rows)
  {
    filled := frame;
    for j := 0 to |columns|
      invariant forall n :: n in filled <==> n in frame || n in columns[..j]
      invariant forall n :: n in frame ==> filled[n] == frame[n]
      invariant forall n :: n in filled && n !in frame ==> filled[n] == Zeros(rows)
    {
      assert columns[..j + 1] == columns[..j] + [columns[j]];
      if columns[j] !in filled {
        filled := filled[columns[j] := Zeros(rows)];
      }
    }
    assert columns[..|columns|] == columns;
  }

  /** `X_test_final[required_columns]`, read row by row. */
  function Select(frame: Frame, columns: seq<string>, rows: nat): (x: seq<seq<real>>)
    requires forall j :: 0 <= j < |columns| ==> columns[j] in frame && |frame[columns[j]]| == rows
    ensures |x| == rows
    ensures forall i :: 0 <= i < rows ==> |x[i]| == |columns|
    ensures forall i, j :: 0 <= i < rows && 0 <= j < |columns| ==> x[i][j] == frame[columns[j]][i]
  {
    seq(rows, i requires 0 <= i < rows =>
      seq(|columns|, j requires 0 <= j < |columns| => frame[columns[j]][i]))
  }

  /**
   * preprocess_test_data: each order of the batch becomes exactly its own feature row,
   * whatever other orders the batch holds.
   */
  method PreprocessTestData(orders: seq<Order>) returns (features: seq<seq<real>>)
    ensures |features| == |orders|
    ensures forall i :: 0 <= i < |orders| ==> features[i] == EncodeOrder(orders[i])
  {
    var combined := Combined(orders);
    var filled := FillMissing(combined, RequiredNames, |orders|);
    RequiredColumnsWellFormed();
    forall j | 0 <= j < |RequiredNames|
      ensures RequiredNames[j] in filled && filled[RequiredNames[j]] == ColumnValues(orders, RequiredColumns[j])
    {
      RequiredColumnFilled(orders, filled, j);
    }
    features := Select(filled, RequiredNames, |orders|);
    RowsAreEncodings(orders, features);
  }

  // ---------------------------------------------------------------------------
  // Lemmas for the data-frame computation

  /** The required columns are well formed, and the first eight are `numerical_columns`. */
  lemma RequiredColumnsWellFormed()
    ensures |RequiredNames| == |RequiredColumns| == 19
    ensures forall j :: 0 <= j < |RequiredColumns| ==> WellFormed(RequiredColumns[j])
    ensures forall j :: 0 <= j < |NumericalColumns| ==> RequiredColumns[j] == Raw(NumericalColumns[j])
    ensures forall j :: |NumericalColumns| <= j < |RequiredColumns| ==> RequiredColumns[j].Dummy?
  {
  }

  lemma NumericNamesDistinct()
    ensures forall f, f' :: f in NumericalColumns && f' in NumericalColumns && Name(f) == Name(f') ==> f == f'
  {
  }

  lemma DummyNamesDistinct()
    ensures forall g, v, v' :: ColumnName(Dummy(g, v)) == ColumnName(Dummy(g, v')) ==> v == v'
  {
    forall g, v, v' | ColumnName(Dummy(g, v)) == ColumnName(Dummy(g, v')) ensures v == v' {
      var p := Prefix(g);
      assert v == (p + v)[|p|..] && v' == (p + v')[|p|..];
    }
  }

  /** Indicator names of different groups differ, and differ from every numeric name. */
  lemma NamesSeparate(g: Group, v: string)
    ensures forall g', v' :: g' != g ==> ColumnName(Dummy(g', v')) != ColumnName(Dummy(g, v))
    ensures forall f :: IsNumeric(f) ==> Name(f) != ColumnName(Dummy(g, v))
  {
    var n := ColumnName(Dummy(g, v));
    DummyNameHead(g, v);
    forall g', v' | g' != g ensures ColumnName(Dummy(g', v')) != n {
      DummyNameHead(g', v');
    }
    forall f | IsNumeric(f) ensures Name(f) != n {
      assert Name(f)[0] != n[0];
    }
  }

  /** An indicator column's name begins with its group's prefix; the first and third letters tell the groups apart. */
  lemma DummyNameHead(g: Group, v: string)
    ensures |ColumnName(Dummy(g, v))| > 2
    ensures ColumnName(Dummy(g, v))[0] == (if g == Payment then 'p' else 'c')
    ensures ColumnName(Dummy(g, v))[2] == (match g case Country => 'u' case Collect => 'l' case Payment => 'y')
  {
    var n := ColumnName(Dummy(g, v));
    assert n[..|Prefix(g)|] == Prefix(g);
  }

  /** The numeric frame holds exactly the numeric columns, each with its values. */
  lemma NumericFrameLookup(orders: seq<Order>, c: Column)
    requires WellFormed(c)
    ensures ColumnName(c) in NumericFrame(orders) <==> c.Raw? && c.field in NumericalColumns
    ensures ColumnName(c) in NumericFrame(orders) ==> NumericFrame(orders)[ColumnName(c)] == ColumnValues(orders, c)
  {
    match c
    case Raw(f) => NumericColumnPresent(orders, f);
    case Dummy(g, v) => IndicatorNotNumeric(orders, g, v);
  }

  lemma NumericColumnPresent(orders: seq<Order>, f: Field)
    requires IsNumeric(f)
    ensures f in NumericalColumns && Name(f) in NumericFrame(orders)
    ensures NumericFrame(orders)[Name(f)] == ColumnValues(orders, Raw(f))
  {
    NumericNamesDistinct();
  }

  lemma IndicatorNotNumeric(orders: seq<Order>, g: Group, v: string)
    ensures ColumnName(Dummy(g, v)) !in NumericFrame(orders)
  {
    NamesSeparate(g, v);
    NumericFrameKeys(orders, ColumnName(Dummy(g, v)));
  }

  lemma NumericFrameKeys(orders: seq<Order>, n: string)
    ensures n in NumericFrame(orders) ==> exists f :: f in NumericalColumns && IsNumeric(f) && n == Name(f)
  {
    if n in NumericFrame(orders) {
      var f :| f in NumericalColumns && n == Name(f);
      NumericalColumnsNumeric();
    }
  }

  lemma NumericalColumnsNumeric()
    ensures forall f :: f in NumericalColumns ==> IsNumeric(f)
  {
  }

  lemma DummyFrameKeys(orders: seq<Order>, g: Group, values: set<string>, n: string)
    requires n in DummyFrame(orders, g, values)
    ensures exists v :: v in values && n == ColumnName(Dummy(g, v))
  {
  }

  /** The indicators of a group hold exactly the columns of that group's observed values. */
  lemma DummiesLookup(orders: seq<Order>, g: Group, c: Column)
    requires WellFormed(c)
    ensures ColumnName(c) in GetDummies(orders, g) <==> c.Dummy? && c.group == g && c.value in Observed(orders, g)
    ensures ColumnName(c) in GetDummies(orders, g) ==> GetDummies(orders, g)[ColumnName(c)] == ColumnValues(orders, c)
  {
    DummyNamesDistinct();
    if ColumnName(c) in GetDummies(orders, g) {
      DummyFrameKeys(orders, g, Observed(orders, g), ColumnName(c));
      var v' :| v' in Observed(orders, g) && ColumnName(c) == ColumnName(Dummy(g, v'));
      NamesSeparate(g, v');
    }
  }

  /** The combined frame holds every numeric column, and an indicator column exactly for the values that occur. */
  lemma CombinedColumn(orders: seq<Order>, c: Column)
    requires WellFormed(c)
    requires c.Raw? ==> c.field in NumericalColumns
    ensures ColumnName(c) in Combined(orders) <==> c.Raw? || c.value in Observed(orders, c.group)
    ensures ColumnName(c) in Combined(orders) ==> Combined(orders)[ColumnName(c)] == ColumnValues(orders, c)
  {
    NumericFrameLookup(orders, c);
    DummiesLookup(orders, Country, c);
    DummiesLookup(orders, Collect, c);
    DummiesLookup(orders, Payment, c);
  }

  /** After zero-filling, every required column holds that column's values for the batch. */
  lemma RequiredColumnFilled(orders: seq<Order>, filled: Frame, j: nat)
    requires j < |RequiredNames|
    requires forall n :: n in filled <==> n in Combined(orders) || n in RequiredNames
    requires forall n :: n in Combined(orders) ==> filled[n] == Combined(orders)[n]
    requires forall n :: n in filled && n !in Combined(orders) ==> filled[n] == Zeros(|orders|)
    ensures RequiredNames[j] in filled
    ensures WellFormed(RequiredColumns[j]) && filled[RequiredNames[j]] == ColumnValues(orders, RequiredColumns[j])
  {
    RequiredColumnsWellFormed();
    CombinedColumn(orders, RequiredColumns[j]);
    match RequiredColumns[j]
    case Raw(f) =>
    case Dummy(g, v) =>
      if RequiredNames[j] !in Combined(orders) {
        // An indicator no row produced: no row has that value, so its column is all zeros.
        forall i | 0 <= i < |orders| ensures GroupValue(orders[i], g) != v {
          assert GroupValue(orders[i], g) in Observed(orders, g);
        }
      }
  }

  // ---------------------------------------------------------------------------
  // Properties of the feature rows

  /** A matrix whose every column is the corresponding required column of the batch holds the batch's feature rows. */
  lemma RowsAreEncodings(orders: seq<Order>, x: seq<seq<real>>)
    requires |x| == |orders|
    requires forall i :: 0 <= i < |x| ==> |x[i]| == |RequiredColumns|
    requires forall j :: 0 <= j < |RequiredColumns| ==> WellFormed(RequiredColumns[j])
    requires forall i, j :: 0 <= i < |x| && 0 <= j < |RequiredColumns| ==> x[i][j] == ColumnValues(orders, RequiredColumns[j])[i]
    ensures forall i :: 0 <= i < |orders| ==> x[i] == EncodeOrder(orders[i])
  {
    forall i | 0 <= i < |orders| ensures x[i] == EncodeOrder(orders[i]) {
      assert forall j :: 0 <= j < |RequiredColumns| ==> x[i][j] == EncodeOrder(orders[i])[j];
    }
  }

  /** The first eight features are the numeric fields, unchanged. */
  lemma NumericCopied(o: Order, j: nat)
    requires j < |NumericalColumns|
    ensures IsNumeric(NumericalColumns[j]) && EncodeOrder(o)[j] == NumericValue(o, NumericalColumns[j])
  {
  }

  /** Where a group's indicators sit in the feature row. */
  function GroupStart(g: Group): nat
  {
    match g
    case Country => 8
    case Collect => 12
    case Payment => 13
  }

  /** The indicators of a group are the columns `{field}_{value}` for its encoded values, in order. */
  lemma GroupColumns(g: Group)
    ensures GroupStart(g) + |Encoded(g)| <= |RequiredColumns|
    ensures RequiredColumns[GroupStart(g)..GroupStart(g) + |Encoded(g)|] ==
      seq(|Encoded(g)|, k requires 0 <= k < |Encoded(g)| => Dummy(g, Encoded(g)[k]))
  {
  }

  /** The slice of an order's feature row that holds the indicators of one group. */
  function Indicators(o: Order, g: Group): (x: seq<real>)
    ensures |x| == |Encoded(g)|
    ensures forall k :: 0 <= k < |Encoded(g)| ==> x[k] == if GroupValue(o, g) == Encoded(g)[k] then 1.0 else 0.0
  {
    IndicatorsAt(o, g);
    EncodeOrder(o)[GroupStart(g)..GroupStart(g) + |Encoded(g)|]
  }

  lemma IndicatorsAt(o: Order, g: Group)
    ensures GroupStart(g) + |Encoded(g)| <= |RequiredColumns|
    ensures forall k :: 0 <= k < |Encoded(g)| ==>
      EncodeOrder(o)[GroupStart(g)..GroupStart(g) + |Encoded(g)|][k] == if GroupValue(o, g) == Encoded(g)[k] then 1.0 else 0.0
  {
    GroupColumns(g);
    var cols := RequiredColumns[GroupStart(g)..GroupStart(g) + |Encoded(g)|];
    forall k | 0 <= k < |Encoded(g)|
      ensures EncodeOrder(o)[GroupStart(g)..GroupStart(g) + |Encoded(g)|][k] == if GroupValue(o, g) == Encoded(g)[k] then 1.0 else 0.0
    {
      assert cols[k] == Dummy(g, Encoded(g)[k]);
    }
  }

  /** One-hot: an order has at most one indicator set per group, and one exactly when its value is encoded. */
  lemma OneHot(o: Order, g: Group)
    ensures forall k, k' :: 0 <= k < k' < |Encoded(g)| ==> Indicators(o, g)[k] == 0.0 || Indicators(o, g)[k'] == 0.0
    ensures (exists k :: 0 <= k < |Encoded(g)| && Indicators(o, g)[k] == 1.0) <==> GroupValue(o, g) in Encoded(g)
  {
    var x := Indicators(o, g);
    EncodedDistinct(g);
    if GroupValue(o, g) in Encoded(g) {
      var k :| 0 <= k < |Encoded(g)| && Encoded(g)[k] == GroupValue(o, g);
      assert x[k] == 1.0;
    }
  }

  /** No option of a group has two columns. */
  lemma EncodedDistinct(g: Group)
    ensures forall k, k' :: 0 <= k < k' < |Encoded(g)| ==> Encoded(g)[k] != Encoded(g)[k']
  {
  }

  /**
   * An order whose value has no column (the reference option, or any value outside the
   * model's list) gets all indicators of that group zero.
   */
  lemma UnencodedAllZero(o: Order, g: Group)
    requires GroupValue(o, g) !in Encoded(g)
    ensures forall k :: 0 <= k < |Encoded(g)| ==> Indicators(o, g)[k] == 0.0
  {
  }

  /** Of the dropdown options, exactly the reference one has no column; every encoded value is an option. */
  lemma ReferenceIsTheDroppedOption(g: Group)
    ensures Reference(g) in Options(g) && Reference(g) !in Encoded(g)
    ensures forall v :: v in Options(g) && v != Reference(g) ==> v in Encoded(g)
    ensures forall v :: v in Encoded(g) ==> v in Options(g)
  {
  }
}
