/**
 * The order record, the manual-entry form and its field-by-field validation
 * (Tkinter/fraudDetector.py:25-40, 323-351, 369-387).
 */
module Records {
  import opened Wrappers
  import opened Validators
  import Text
  import Conversion

  /** The thirteen raw fields of an order. */
  datatype Field =
    | CountryCode | CustomerId | NumOrders | NumCancelledOrders | NumRefundOrders
    | TotalPayment | NumAssociatedCustomers | OrderId | CollectType | OrderValue
    | NumItemsOrdered | RefundValue | PaymentGroup

  /** `fields`: the order in which the form shows, collects and validates the fields. */
  const Fields: seq<Field> := [
    CountryCode, CustomerId, NumOrders, NumCancelledOrders, NumRefundOrders,
    TotalPayment, NumAssociatedCustomers, OrderId, CollectType, OrderValue,
    NumItemsOrdered, RefundValue, PaymentGroup
  ]

  /** The index of a field in `Fields`. */
  function Position(f: Field): (i: nat)
    ensures i < |Fields| && Fields[i] == f
  {
    match f
    case CountryCode => 0
    case CustomerId => 1
    case NumOrders => 2
    case NumCancelledOrders => 3
    case NumRefundOrders => 4
    case TotalPayment => 5
    case NumAssociatedCustomers => 6
    case OrderId => 7
    case CollectType => 8
    case OrderValue => 9
    case NumItemsOrdered => 10
    case RefundValue => 11
    case PaymentGroup => 12
  }

  /** `Fields` lists each field once: `Position` is its inverse. */
  lemma PositionInverse(p: nat)
    requires p < |Fields|
    ensures Position(Fields[p]) == p
  {
  }

  /** The column name of a field in the input file and in the model's feature list. */
  function Name(f: Field): string
  {
    match f
    case CountryCode => "country_code"
    case CustomerId => "customer_id"
    case NumOrders => "num_orders_last_50days"
    case NumCancelledOrders => "num_cancelled_orders_last_50days"
    case NumRefundOrders => "num_refund_orders_last_50days"
    case TotalPayment => "total_payment_last_50days"
    case NumAssociatedCustomers => "num_associated_customers"
    case OrderId => "order_id"
    case CollectType => "collect_type"
    case OrderValue => "order_value"
    case NumItemsOrdered => "num_items_ordered"
    case RefundValue => "refund_value"
    case PaymentGroup => "payment_group"
  }

  /** How a field is checked: the dropdowns, the integer list, the decimal list, and the two identifiers. */
  datatype Kind = Categorical | Count | Money | OrderIdKind | CustomerIdKind

  function KindOf(f: Field): Kind
  {
    match f
    case CountryCode | CollectType | PaymentGroup => Categorical
    case NumOrders | NumCancelledOrders | NumRefundOrders | NumAssociatedCustomers | NumItemsOrdered => Count
    case TotalPayment | OrderValue | RefundValue => Money
    case OrderId => OrderIdKind
    case CustomerId => CustomerIdKind
  }

  /** The text of the thirteen entries of the form, one string per field. */
  datatype Form = Form(
    countryCode: string, customerId: string, numOrders: string, numCancelledOrders: string,
    numRefundOrders: string, totalPayment: string, numAssociatedCustomers: string,
    orderId: string, collectType: string, orderValue: string, numItemsOrdered: string,
    refundValue: string, paymentGroup: string)

  function Get(form: Form, f: Field): string
  {
    match f
    case CountryCode => form.countryCode
    case CustomerId => form.customerId
    case NumOrders => form.numOrders
    case NumCancelledOrders => form.numCancelledOrders
    case NumRefundOrders => form.numRefundOrders
    case TotalPayment => form.totalPayment
    case NumAssociatedCustomers => form.numAssociatedCustomers
    case OrderId => form.orderId
    case CollectType => form.collectType
    case OrderValue => form.orderValue
    case NumItemsOrdered => form.numItemsOrdered
    case RefundValue => form.refundValue
    case PaymentGroup => form.paymentGroup
  }

  /** `input_data`: every entry with `strip()` applied, so no entry has outer whitespace left. */
  function StripAll(form: Form): (stripped: Form)
    ensures forall f :: Get(stripped, f) == Text.Strip(Get(form, f))
  {
    MapEntries(form, Text.Strip)
  }

  /** The form with `op` applied to every entry. */
  function MapEntries(form: Form, op: string -> string): (mapped: Form)
    ensures forall f :: Get(mapped, f) == op(Get(form, f))
  {
    Form(
      op(form.countryCode), op(form.customerId), op(form.numOrders),
      op(form.numCancelledOrders), op(form.numRefundOrders),
      op(form.totalPayment), op(form.numAssociatedCustomers),
      op(form.orderId), op(form.collectType), op(form.orderValue),
      op(form.numItemsOrdered), op(form.refundValue), op(form.paymentGroup))
  }

  /** Stripping the entries again changes nothing. */
  lemma StripAllIdempotent(form: Form)
    ensures StripAll(StripAll(form)) == StripAll(form)
  {
    Text.StripIdempotent(form.countryCode);
    Text.StripIdempotent(form.customerId);
    Text.StripIdempotent(form.numOrders);
    Text.StripIdempotent(form.numCancelledOrders);
    Text.StripIdempotent(form.numRefundOrders);
    Text.StripIdempotent(form.totalPayment);
    Text.StripIdempotent(form.numAssociatedCustomers);
    Text.StripIdempotent(form.orderId);
    Text.StripIdempotent(form.collectType);
    Text.StripIdempotent(form.orderValue);
    Text.StripIdempotent(form.numItemsOrdered);
    Text.StripIdempotent(form.refundValue);
    Text.StripIdempotent(form.paymentGroup);
  }

  /** One message of the validation dialog; the wording itself is not modelled. */
  datatype ValidationError =
    | Empty(field: Field)        // "... cannot be empty."
    | NotInteger(field: Field)   // "... must be an integer."
    | NotDecimal(field: Field)   // "... must be a number with up to 2 decimal places."
    | BadOrderId                 // "Order ID must be in format ..."
    | BadCustomerId              // "Customer ID must be 8 characters long."

  /** The field a message is about. */
  function ErrorField(e: ValidationError): Field
  {
    match e
    case Empty(f) => f
    case NotInteger(f) => f
    case NotDecimal(f) => f
    case BadOrderId => OrderId
    case BadCustomerId => CustomerId
  }

  /** The type and format constraint of each field: non-empty, and the validator of its kind. */
  predicate FieldValid(f: Field, v: string)
  {
    && v != ""
    && match KindOf(f)
       case Categorical => true
       case Count => ValidateInteger(v)
       case Money => ValidateFloat(v)
       case OrderIdKind => ValidateOrderId(v)
       case CustomerIdKind => ValidateCustomerId(v)
  }

  predicate FormValid(form: Form)
  {
    forall f :: FieldValid(f, Get(form, f))
  }

  /** The one branch of the if/elif chain a field's value takes: at most one message. */
  function FieldError(f: Field, v: string): (r: Option<ValidationError>)
    ensures r == None <==> FieldValid(f, v)
    ensures r.Some? ==> ErrorField(r.value) == f
    ensures v == "" ==> r == Some(Empty(f))
    ensures KindOf(f) == Categorical && v != "" ==> r == None
  {
    if v == "" then Some(Empty(f))
    else match KindOf(f)
      case Count => if !ValidateInteger(v) then Some(NotInteger(f)) else None
      case Money => if !ValidateFloat(v) then Some(NotDecimal(f)) else None
      case OrderIdKind => if !ValidateOrderId(v) then Some(BadOrderId) else None
      case CustomerIdKind => if !ValidateCustomerId(v) then Some(BadCustomerId) else None
      case Categorical => None
  }

  /** The messages a field contributes: none, or its one message. */
  function FieldErrors(f: Field, v: string): (es: seq<ValidationError>)
    ensures |es| <= 1
  {
    match FieldError(f, v)
    case None => []
    case Some(e) => [e]
  }

  /** The messages collected for the first `k` fields of `Fields`. */
  function ErrorsUpTo(form: Form, k: nat): (errors: seq<ValidationError>)
    requires k <= |Fields|
    ensures |errors| <= k
  {
    if k == 0 then [] else ErrorsUpTo(form, k - 1) + FieldErrors(Fields[k - 1], Get(form, Fields[k - 1]))
  }

  /** The `errors` list of single_predict and validate_and_predict. */
  function Errors(form: Form): (errors: seq<ValidationError>)
    ensures |errors| <= |Fields|
  {
    ErrorsUpTo(form, |Fields|)
  }

  /** The validation loop: one pass over `Fields`, appending at most one message per field. */
  method ValidateForm(form: Form) returns (errors: seq<ValidationError>)
    ensures errors == Errors(form)
  {
    errors := [];
    for i := 0 to |Fields|
      invariant errors == ErrorsUpTo(form, i)
    {
      var f := Fields[i];
      var e := FieldError(f, Get(form, f));
      if e.Some? {
        errors := errors + [e.value];
      }
    }
  }

  /** `e` is the message the if/elif chain gives for its own field's entry. */
  predicate IsFieldMessage(form: Form, e: ValidationError)
  {
    FieldError(ErrorField(e), Get(form, ErrorField(e))) == Some(e)
  }

  /** Each message collected for the first `k` fields is the message of one of them. */
  lemma {:induction false} ErrorsUpToSound(form: Form, k: nat)
    requires k <= |Fields|
    ensures forall e :: e in ErrorsUpTo(form, k) ==> Position(ErrorField(e)) < k && IsFieldMessage(form, e)
  {
    if k > 0 {
      ErrorsUpToSound(form, k - 1);
      var prev := ErrorsUpTo(form, k - 1);
      var fe := FieldError(Fields[k - 1], Get(form, Fields[k - 1]));
      assert ErrorsUpTo(form, k) == prev + FieldErrors(Fields[k - 1], Get(form, Fields[k - 1]));
      if fe.Some? {
        PositionInverse(k - 1);
        assert IsFieldMessage(form, fe.value);
      }
    }
  }

  /** The messages collected for the first `k` fields come one per field, in the order of `Fields`. */
  lemma {:induction false} ErrorsUpToOrdered(form: Form, k: nat)
    requires k <= |Fields|
    ensures forall i, j :: 0 <= i < j < |ErrorsUpTo(form, k)| ==>
      Position(ErrorField(ErrorsUpTo(form, k)[i])) < Position(ErrorField(ErrorsUpTo(form, k)[j]))
  {
    if k > 0 {
      ErrorsUpToOrdered(form, k - 1);
      ErrorsUpToSound(form, k - 1);
      var prev := ErrorsUpTo(form, k - 1);
      var extra := FieldErrors(Fields[k - 1], Get(form, Fields[k - 1]));
      var errs := prev + extra;
      assert ErrorsUpTo(form, k) == errs;
      forall i, j | 0 <= i < j < |errs| ensures Position(ErrorField(errs[i])) < Position(ErrorField(errs[j])) {
        if j >= |prev| {
          var fe := FieldError(Fields[k - 1], Get(form, Fields[k - 1]));
          assert fe.Some? && extra == [fe.value];
          assert errs[j] == fe.value;
          PositionInverse(k - 1);
          assert errs[i] == prev[i] && prev[i] in prev;
        } else {
          assert errs[i] == prev[i] && errs[j] == prev[j];
        }
      }
    }
  }

  /** Every message of the first `k` fields is collected. */
  lemma {:induction false} ErrorsUpToComplete(form: Form, k: nat)
    requires k <= |Fields|
    ensures forall p :: 0 <= p < k && FieldError(Fields[p], Get(form, Fields[p])).Some? ==>
      FieldError(Fields[p], Get(form, Fields[p])).value in ErrorsUpTo(form, k)
  {
    if k > 0 {
      ErrorsUpToComplete(form, k - 1);
      var prev := ErrorsUpTo(form, k - 1);
      var extra := FieldErrors(Fields[k - 1], Get(form, Fields[k - 1]));
      assert ErrorsUpTo(form, k) == prev + extra;
    }
  }

  /**
   * The message list names each failing field once, with that field's message, in the
   * order of `Fields`, and nothing else.
   */
  lemma ErrorsExact(form: Form)
    ensures var errs := Errors(form);
      && (forall e :: e in errs ==> IsFieldMessage(form, e))
      && (forall i, j :: 0 <= i < j < |errs| ==> Position(ErrorField(errs[i])) < Position(ErrorField(errs[j])))
      && (forall f :: FieldError(f, Get(form, f)).Some? ==> FieldError(f, Get(form, f)).value in errs)
  {
    ErrorsUpToSound(form, |Fields|);
    ErrorsUpToOrdered(form, |Fields|);
    ErrorsUpToComplete(form, |Fields|);
    forall f | FieldError(f, Get(form, f)).Some? ensures FieldError(f, Get(form, f)).value in Errors(form) {
      assert Fields[Position(f)] == f;
    }
  }

  /** No message at all exactly when every field is present and well formed. */
  lemma ErrorsEmptyIffValid(form: Form)
    ensures Errors(form) == [] <==> FormValid(form)
  {
    ErrorsExact(form);
    if !FormValid(form) {
      var f :| !FieldValid(f, Get(form, f));
      assert FieldError(f, Get(form, f)).value in Errors(form);
    }
    if Errors(form) != [] {
      var e := Errors(form)[0];
      assert e in Errors(form);
      assert !FieldValid(ErrorField(e), Get(form, ErrorField(e)));
    }
  }

  /** An empty entry is always reported as empty, and gets no other message. */
  lemma EmptyReported(form: Form, f: Field)
    requires Get(form, f) == ""
    ensures Empty(f) in Errors(form)
    ensures forall e :: e in Errors(form) && ErrorField(e) == f ==> e == Empty(f)
  {
    ErrorsExact(form);
  }

  /** A dropdown field is only ever reported as empty, never as malformed. */
  lemma CategoricalOnlyEmpty(form: Form)
    ensures forall e :: e in Errors(form) && KindOf(ErrorField(e)) == Categorical ==> e == Empty(ErrorField(e))
  {
    ErrorsExact(form);
  }

  /** A typed order: the row the preprocessing and the model see. */
  datatype Order = Order(
    countryCode: string, customerId: string, numOrders: int, numCancelledOrders: int,
    numRefundOrders: int, totalPayment: real, numAssociatedCustomers: int,
    orderId: string, collectType: string, orderValue: real, numItemsOrdered: int,
    refundValue: real, paymentGroup: string)

  /** The conversion of a validated form: `int(...)` on the counts, `float(...)` on the amounts. */
  /**
   * The most digits CPython's `int()` converts from text by default
   * (`sys.get_int_max_str_digits()`): a longer string raises `ValueError`.
   */
  const IntMaxStrDigits: nat := 4300

  /** The fields the conversion loop passes to `int()`, in its order. */
  const CountFields: seq<Field> := [NumOrders, NumCancelledOrders, NumRefundOrders, NumAssociatedCustomers, NumItemsOrdered]

  /** The conversion loop converts exactly the whole-number fields. */
  lemma CountFieldsAreCounts()
    ensures forall f :: f in CountFields <==> KindOf(f) == Count
  {
  }

  /** `int()` succeeds on every count entry. */
  predicate IntsConvertible(form: Form)
  {
    forall j :: 0 <= j < |CountFields| ==> |Get(form, CountFields[j])| <= IntMaxStrDigits
  }

  /** The `int(...)` loop of single_predict: it gets through when no count entry is too long. */
  method ConvertCounts(form: Form) returns (ok: bool)
    ensures ok <==> IntsConvertible(form)
  {
    ok := true;
    for j := 0 to |CountFields|
      invariant ok <==> forall k :: 0 <= k < j ==> |Get(form, CountFields[k])| <= IntMaxStrDigits
    {
      if |Get(form, CountFields[j])| > IntMaxStrDigits {
        ok := false;
      }
    }
  }

  function ToOrder(form: Form): (o: Order)
    requires FormValid(form) && IntsConvertible(form)
    ensures o.countryCode == form.countryCode && o.collectType == form.collectType
    ensures o.paymentGroup == form.paymentGroup
    ensures o.orderId == form.orderId && o.customerId == form.customerId
    ensures o.numOrders >= 0 && o.numCancelledOrders >= 0 && o.numRefundOrders >= 0
    ensures o.numAssociatedCustomers >= 0 && o.numItemsOrdered >= 0
    ensures o.totalPayment >= 0.0 && o.orderValue >= 0.0 && o.refundValue >= 0.0
  {
    assert FieldValid(NumOrders, Get(form, NumOrders)) && FieldValid(NumCancelledOrders, Get(form, NumCancelledOrders));
    assert FieldValid(NumRefundOrders, Get(form, NumRefundOrders)) && FieldValid(TotalPayment, Get(form, TotalPayment));
    assert FieldValid(NumAssociatedCustomers, Get(form, NumAssociatedCustomers)) && FieldValid(OrderValue, Get(form, OrderValue));
    assert FieldValid(NumItemsOrdered, Get(form, NumItemsOrdered)) && FieldValid(RefundValue, Get(form, RefundValue));
    Order(
      form.countryCode, form.customerId,
      Conversion.ParseInteger(form.numOrders), Conversion.ParseInteger(form.numCancelledOrders),
      Conversion.ParseInteger(form.numRefundOrders), Conversion.ParseDecimal(form.totalPayment),
      Conversion.ParseInteger(form.numAssociatedCustomers), form.orderId, form.collectType,
      Conversion.ParseDecimal(form.orderValue), Conversion.ParseInteger(form.numItemsOrdered),
      Conversion.ParseDecimal(form.refundValue), form.paymentGroup)
  }
}
