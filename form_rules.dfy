/** The field rules shared by the contact page's inquiry form and the home
    page's quick-quote form: each is a zod string rule (`min(n, message)` on
    the string's length, or `email(message)`), and a form's errors are the
    failing rules' messages in schema order. */
module FormRules {

  datatype Field = Name | Email | Phone | Service | OtherService | Message

  datatype FieldError = FieldError(field: Field, message: string)

  const NameMinLength: nat := 2
  const PhoneMinLength: nat := 10
  const ServiceMinLength: nat := 1
  const MessageMinLength: nat := 10

  const NameMessage := "Name must be at least 2 characters"
  const EmailMessage := "Please enter a valid email address"
  const PhoneMessage := "Please enter a valid phone number"
  const ServiceMessage := "Please select a service"
  const MessageMessage := "Message must be at least 10 characters"

  /** Some error of errs concerns field f (zod's per-field issue). */
  predicate HasError(errs: seq<FieldError>, f: Field)
  {
    exists e :: e in errs && e.field == f
  }

  /** `z.string().min(min, message)` applied to field f. */
  function MinLengthRule(f: Field, value: string, min: nat, message: string): (errs: seq<FieldError>)
    ensures HasError(errs, f) <==> |value| < min
    ensures forall e :: e in errs ==> e == FieldError(f, message)
  {
    if |value| < min then [FieldError(f, message)] else []
  }

  /** `z.string().email(message)`; the address grammar belongs to the zod
      library and is passed in as isEmail. */
  function EmailRule(value: string, isEmail: string -> bool): (errs: seq<FieldError>)
    ensures HasError(errs, Email) <==> !isEmail(value)
    ensures forall e :: e in errs ==> e == FieldError(Email, EmailMessage)
  {
    if isEmail(value) then [] else [FieldError(Email, EmailMessage)]
  }

  lemma HasErrorAppend(a: seq<FieldError>, b: seq<FieldError>, f: Field)
    ensures HasError(a + b, f) <==> HasError(a, f) || HasError(b, f)
  {
    if HasError(a + b, f) {
      var e :| e in a + b && e.field == f;
      assert e in a || e in b;
    }
    if HasError(a, f) {
      var e :| e in a && e.field == f;
      assert e in a + b;
    }
    if HasError(b, f) {
      var e :| e in b && e.field == f;
      assert e in a + b;
    }
  }

  /** The rules both forms apply to their five common fields, in schema
      order: the name's length, the email, and the phone's, service's and
      message's lengths. */
  function InquiryErrors(name: string, email: string, phone: string, service: string, message: string,
                         isEmail: string -> bool): (errs: seq<FieldError>)
    ensures HasError(errs, Name) <==> |name| < NameMinLength
    ensures HasError(errs, Email) <==> !isEmail(email)
    ensures HasError(errs, Phone) <==> |phone| < PhoneMinLength
    ensures HasError(errs, Service) <==> service == ""
    ensures HasError(errs, Message) <==> |message| < MessageMinLength
    ensures !HasError(errs, OtherService)
    ensures errs == [] <==>
              |name| >= 2 && isEmail(email) && |phone| >= 10 && service != "" && |message| >= 10
  {
    var a := MinLengthRule(Name, name, NameMinLength, NameMessage);
    var b := EmailRule(email, isEmail);
    var c := MinLengthRule(Phone, phone, PhoneMinLength, PhoneMessage);
    var d := MinLengthRule(Service, service, ServiceMinLength, ServiceMessage);
    var e := MinLengthRule(Message, message, MessageMinLength, MessageMessage);
    var errs := a + b + c + d + e;
    forall f ensures HasError(errs, f) <==>
        HasError(a, f) || HasError(b, f) || HasError(c, f) || HasError(d, f) || HasError(e, f) {
      HasErrorAppend(a, b, f);
      HasErrorAppend(a + b, c, f);
      HasErrorAppend(a + b + c, d, f);
      HasErrorAppend(a + b + c + d, e, f);
    }
    errs
  }

  /** What a submit press produces: nothing while a submission is pending
      (the button is disabled), the validation errors, or the payload that
      is sent. */
  datatype SubmitOutcome<V> = Ignored | Rejected(errors: seq<FieldError>) | Sending(payload: V)
}
