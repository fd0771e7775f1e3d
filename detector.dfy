/**
 * The manual-entry flows: single_predict and validate_and_predict
 * (Tkinter/fraudDetector.py:315-387) and the verdict shown for a label (:359).
 */
module Detector {
  import opened Wrappers
  import opened Validators
  import Text
  import opened Records
  import opened Preprocessing
  import opened BatchGate

  /** The message shown for the model's label: only label 1 is a fraud verdict. */
  function Verdict(isFraud: int): (message: string)
    ensures message == "Suspicious Order Detected!" <==> isFraud == 1
    ensures message == "Order Appears Safe" <==> isFraud != 1
  {
    if isFraud == 1 then "Suspicious Order Detected!" else "Order Appears Safe"
  }

  /** How a single prediction ends. */
  datatype SingleOutcome =
    | ModelMissing                            // "Model is not loaded."
    | ValidationFailed(errors: seq<ValidationError>)  // the validation dialog, one line per message
    | ConversionFailed                        // "Failed to predict: ..." from `int()`
    | Prediction(isFraud: int, verdict: string) // the prediction dialog

  /**
   * single_predict: with a model, the stripped entries are validated; a form with any
   * message is rejected with all of them, and a clean form is converted, preprocessed
   * as a one-row batch and scored. The conversion fails when a count entry has more
   * digits than `int()` accepts.
   */
  method SinglePredict(entries: Form, model: Option<Classifier>) returns (outcome: SingleOutcome)
    ensures model.None? ==> outcome == ModelMissing
    ensures model.Some? ==> (outcome.ValidationFailed? <==> !FormValid(StripAll(entries)))
    ensures model.Some? && FormValid(StripAll(entries)) ==>
      (outcome.Prediction? <==> IntsConvertible(StripAll(entries))) &&
      (!IntsConvertible(StripAll(entries)) ==> outcome == ConversionFailed)
    ensures outcome.ValidationFailed? ==> outcome.errors == Errors(StripAll(entries)) && outcome.errors != []
    ensures outcome.Prediction? ==>
      && model.Some? && FormValid(StripAll(entries)) && IntsConvertible(StripAll(entries))
      && outcome.isFraud == model.value(EncodeOrder(ToOrder(StripAll(entries))))
      && outcome.verdict == Verdict(outcome.isFraud)
  {
    if model.None? {
      return ModelMissing;
    }
    var input := StripAll(entries);
    var errors := ValidateForm(input);
    ErrorsEmptyIffValid(input);
    if errors != [] {
      return ValidationFailed(errors);
    }
    var converted := ConvertCounts(input);
    if !converted {
      return ConversionFailed;
    }
    var order := ToOrder(input);
    var features := PreprocessTestData([order]);
    var isFraud := model.value(features[0]);
    outcome := Prediction(isFraud, Verdict(isFraud));
  }

  /** The result of the validate button. */
  datatype FormCheck =
    | Rejected(errors: seq<ValidationError>)  // "Validation Error" with the messages
    | Accepted                                // "Input validated successfully!"

  /** validate_and_predict: the same validation as single_predict, without a prediction. */
  method ValidateAndPredict(entries: Form) returns (check: FormCheck)
    ensures check == Accepted <==> FormValid(StripAll(entries))
    ensures check.Rejected? ==> check.errors == Errors(StripAll(entries)) && check.errors != []
  {
    var input := StripAll(entries);
    var errors := ValidateForm(input);
    ErrorsEmptyIffValid(input);
    if errors != [] {
      check := Rejected(errors);
    } else {
      check := Accepted;
    }
  }

  /**
   * After `strip()`, the allowance of the regular expressions' `$` for one final
   * newline never matters: each validator accepts a stripped entry exactly when
   * the entry itself has the shape.
   */
  lemma StrippedEntryShapes(v: string)
    ensures ValidateOrderId(Text.Strip(v)) <==> OrderIdShape(Text.Strip(v))
    ensures ValidateCustomerId(Text.Strip(v)) <==> CustomerIdShape(Text.Strip(v))
    ensures ValidateFloat(Text.Strip(v)) <==> DecimalShape(Text.Strip(v))
  {
    Text.StripNoFinalNewline(v);
  }

  /**
   * A stripped form is valid exactly when every entry, stripped, is non-empty and has
   * its field's shape; categorical entries need only be non-empty.
   */
  lemma StrippedFormValid(entries: Form)
    ensures FormValid(StripAll(entries)) <==> forall f :: StrippedFieldValid(f, Get(entries, f))
  {
    forall f ensures FieldValid(f, Get(StripAll(entries), f)) <==> StrippedFieldValid(f, Get(entries, f)) {
      StrippedFieldIff(f, Get(entries, f));
    }
  }

  lemma StrippedFieldIff(f: Field, raw: string)
    ensures FieldValid(f, Text.Strip(raw)) <==> StrippedFieldValid(f, raw)
  {
    StrippedEntryShapes(raw);
  }

  /** The per-field condition of StrippedFormValid, with the shapes in place of the regular expressions. */
  predicate StrippedFieldValid(f: Field, raw: string)
  {
    var v := Text.Strip(raw);
    && v != ""
    && match KindOf(f)
       case Categorical => true
       case Count => AllDigits(v)
       case Money => DecimalShape(v)
       case OrderIdKind => OrderIdShape(v)
       case CustomerIdKind => CustomerIdShape(v)
  }

  /**
   * The form and an upload agree. The order a valid form describes passes the upload's
   * identifier check, and when it stands at position `i` of a clean batch scored by the
   * same model, that row's label is the one single_predict reports. The requires are
   * what SinglePredict and BulkPredict ensure when the model is present.
   */
  lemma SingleAgreesWithBatch(entries: Form, model: Classifier, single: SingleOutcome,
                              orders: seq<Order>, bulk: BulkOutcome, i: nat)
    requires FormValid(StripAll(entries)) && IntsConvertible(StripAll(entries))
    requires single.Prediction? && single.isFraud == model(EncodeOrder(ToOrder(StripAll(entries))))
    requires AllIdsValid(orders) ==> bulk == Scored(Scores(orders, model))
    requires i < |orders| && orders[i] == ToOrder(StripAll(entries))
    ensures IdsValid(ToOrder(StripAll(entries)))
    ensures AllIdsValid(orders) ==> bulk.Scored? && bulk.results[i].order == orders[i]
    ensures AllIdsValid(orders) ==> bulk.results[i].isFraud == single.isFraud
  {
    ValidFormPassesGate(StripAll(entries));
  }

  /** A form the validators accept describes an order the upload's identifier check accepts. */
  lemma ValidFormPassesGate(form: Form)
    requires FormValid(form) && IntsConvertible(form)
    ensures IdsValid(ToOrder(form))
  {
    ValidFormIds(form);
  }

  lemma ValidFormIds(form: Form)
    requires FormValid(form)
    ensures ValidateOrderId(form.orderId) && ValidateCustomerId(form.customerId)
  {
    assert FieldValid(OrderId, Get(form, OrderId));
    assert FieldValid(CustomerId, Get(form, CustomerId));
  }
}
