/**
 * `src/components/BankDetailsForm.tsx`: the bank-transfer form. The schema
 * sets minimum lengths (counted, as JavaScript does, in UTF-16 code units)
 * and a positive parsed amount; a valid submission is handed on after a
 * simulated delay.
 */
module BankDetailsForm {
  import opened Wrappers
  import opened Seqs
  import opened WalletCard

  datatype BankDetails = BankDetails(
    accountName: string, accountNumber: string, routingNumber: string, bankName: string, amount: string)

  datatype BankField = AccountName | AccountNumber | RoutingNumber | BankName | Amount

  /** `s.length`: characters outside the Basic Multilingual Plane take two code units. */
  function Utf16Length(s: string): (n: nat)
    ensures |s| <= n <= 2 * |s|
  {
    if |s| == 0 then 0
    else (if s[0] as int >= 0x10000 then 2 else 1) + Utf16Length(s[1..])
  }

  /** The schema's minimum lengths: 2, 8, 9 (a minimum only, not exactly nine) and 2. */
  function MinLength(f: BankField): nat
  {
    match f
    case AccountName => 2
    case AccountNumber => 8
    case RoutingNumber => 9
    case BankName => 2
    case Amount => 0
  }

  function FieldText(v: BankDetails, f: BankField): string
  {
    match f
    case AccountName => v.accountName
    case AccountNumber => v.accountNumber
    case RoutingNumber => v.routingNumber
    case BankName => v.bankName
    case Amount => v.amount
  }

  /** One field's rule; the amount's rule is on `parsed`, the result of `parseFloat(v.amount)`. */
  predicate FieldOk(v: BankDetails, parsed: JsNumber, f: BankField)
  {
    if f == Amount then PositiveAmount(parsed) else Utf16Length(FieldText(v, f)) >= MinLength(f)
  }

  /** The form's fields, in form order. */
  const Fields: seq<BankField> := [AccountName, AccountNumber, RoutingNumber, BankName, Amount]

  lemma EveryFieldListed()
    ensures forall f: BankField :: f in Fields
  {
    forall f: BankField ensures f in Fields {
      match f
      case AccountName => assert Fields[0] == f;
      case AccountNumber => assert Fields[1] == f;
      case RoutingNumber => assert Fields[2] == f;
      case BankName => assert Fields[3] == f;
      case Amount => assert Fields[4] == f;
    }
  }

  /** The fields that fail the schema, in form order; the form submits only when there are none. */
  function Validate(v: BankDetails, parsed: JsNumber): (errors: seq<BankField>)
    ensures forall f :: f in errors <==> !FieldOk(v, parsed, f)
    ensures errors == [] ==> PositiveAmount(parsed) && Utf16Length(v.routingNumber) >= 9
  {
    var errors := Filter(Fields, (f: BankField) => !FieldOk(v, parsed, f));
    EveryFieldListed();
    errors
  }

  class BankDetailsFormState {
    var isSubmitting: bool
    /** The amount waiting for the delay to end. */
    var pending: Option<JsNumber>
    /** The amounts handed to `onSubmit`, in order. */
    var submitted: seq<JsNumber>

    constructor ()
      ensures !isSubmitting && pending == None && submitted == []
    {
      isSubmitting := false;
      pending := None;
      submitted := [];
    }

    /** `handleSubmit`, reached only with values the schema accepted: the form is busy until the delay ends. */
    method HandleSubmit(v: BankDetails, parsed: JsNumber)
      requires Validate(v, parsed) == []
      modifies this`isSubmitting, this`pending
      ensures isSubmitting && pending == Some(parsed) && PositiveAmount(parsed)
    {
      isSubmitting := true;
      pending := Some(parsed);
    }

    /** The end of the delay: the form is free again and `onSubmit` receives the parsed amount. */
    method FinishSubmit()
      requires pending.Some? && PositiveAmount(pending.value)
      modifies this`isSubmitting, this`pending, this`submitted
      ensures !isSubmitting && pending == None
      ensures submitted == old(submitted) + [old(pending).value] && PositiveAmount(old(pending).value)
    {
      isSubmitting := false;
      submitted := submitted + [pending.value];
      pending := None;
    }
  }
}
