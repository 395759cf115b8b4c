/** The contact page's inquiry form: six text fields validated by a zod
    schema, an "Other Services" choice that reveals one extra field and
    clears it when another service is chosen, and a simulated submission that
    disables the submit button while pending and resets the form when done. */
module Contact {
  import opened FormRules

  datatype ContactValues = ContactValues(
    name: string,
    email: string,
    phone: string,
    service: string,
    otherService: string,
    message: string)

  /** The form's `defaultValues`, which `form.reset()` restores. */
  const Defaults := ContactValues("", "", "", "", "", "")

  /** The service choice that reveals the extra field. */
  const OtherServices := "Other Services"

  /** The entries of the service drop-down, in order. */
  const ServiceOptions: seq<string> := [
    "Regular House Cleaning",
    "Deep Cleaning Service",
    "Office Cleaning",
    "Move-in/Move-out Cleaning",
    "Post-Construction Cleanup",
    "Retail Space Cleaning",
    OtherServices
  ]

  /** The value of one field. */
  function Get(v: ContactValues, f: Field): string
  {
    match f
    case Name => v.name
    case Email => v.email
    case Phone => v.phone
    case Service => v.service
    case OtherService => v.otherService
    case Message => v.message
  }

  /** The values after the user types x into field f. */
  function Set(v: ContactValues, f: Field, x: string): (w: ContactValues)
    ensures Get(w, f) == x
    ensures forall g :: g != f ==> Get(w, g) == Get(v, g)
  {
    match f
    case Name => v.(name := x)
    case Email => v.(email := x)
    case Phone => v.(phone := x)
    case Service => v.(service := x)
    case OtherService => v.(otherService := x)
    case Message => v.(message := x)
  }

  /** `formSchema`: the errors zod reports, in schema order. `otherService`
      is `z.string().optional()`, so it never fails, whatever the service. */
  function ContactErrors(v: ContactValues, isEmail: string -> bool): (errs: seq<FieldError>)
    ensures !HasError(errs, OtherService)
    ensures errs == [] <==>
              |v.name| >= 2 && isEmail(v.email) && |v.phone| >= 10 && v.service != "" && |v.message| >= 10
  {
    InquiryErrors(v.name, v.email, v.phone, v.service, v.message, isEmail)
  }

  /** The all-empty defaults are rejected on every length rule. */
  lemma DefaultsRejected(isEmail: string -> bool)
    ensures var errs := ContactErrors(Defaults, isEmail);
            HasError(errs, Name) && HasError(errs, Phone) && HasError(errs, Service) &&
            HasError(errs, Message) && errs != []
  {
  }

  /** Choosing "Other Services" and leaving its extra field empty is
      accepted: the field is optional in the schema although its label is
      marked as required. */
  lemma OtherServicesDetailOptional(v: ContactValues, isEmail: string -> bool)
    requires v.service == OtherServices && v.otherService == ""
    requires |v.name| >= 2 && isEmail(v.email) && |v.phone| >= 10 && |v.message| >= 10
    ensures ContactErrors(v, isEmail) == []
  {
  }

  /** The phone rule only counts characters: replacing the phone by any
      string of the same length, letters included, gives the same errors. */
  lemma PhoneFormatUnchecked(v: ContactValues, phone: string, isEmail: string -> bool)
    requires |phone| == |v.phone|
    ensures ContactErrors(v.(phone := phone), isEmail) == ContactErrors(v, isEmail)
  {
  }

  /** The effect on `watchService`: the extra field is emptied unless the
      service is "Other Services". */
  function ServiceEffect(v: ContactValues): (w: ContactValues)
    ensures w.service == v.service
    ensures v.service == OtherServices ==> w == v
    ensures v.service != OtherServices ==> w.otherService == "" && Set(w, OtherService, v.otherService) == v
  {
    if v.service != OtherServices then v.(otherService := "") else v
  }

  /** Running the effect a second time changes nothing. */
  lemma ServiceEffectIdempotent(v: ContactValues)
    ensures ServiceEffect(ServiceEffect(v)) == ServiceEffect(v)
  {
  }

  /** The form's state: the field values, whether the extra field is shown,
      and whether a submission is pending. */
  class ContactForm {
    const isEmail: string -> bool
    var values: ContactValues
    var showOtherField: bool
    var isSubmitting: bool

    /** The extra field is shown exactly for "Other Services" and is empty
        whenever it is hidden. */
    predicate Consistent()
      reads this
    {
      showOtherField == (values.service == OtherServices) &&
      (values.service != OtherServices ==> values.otherService == "")
    }

    /** The submit button's `disabled` property is `isSubmitting`. */
    predicate SubmitEnabled()
      reads this
    {
      !isSubmitting
    }

    constructor (isEmail: string -> bool)
      ensures this.isEmail == isEmail
      ensures values == Defaults && !showOtherField && !isSubmitting
      ensures Consistent()
    {
      this.isEmail := isEmail;
      values := Defaults;
      showOtherField := false;
      isSubmitting := false;
    }

    /** The effect body, run after the service field changes. */
    method RunServiceEffect()
      modifies this
      ensures values == ServiceEffect(old(values))
      ensures showOtherField == (values.service == OtherServices)
      ensures isSubmitting == old(isSubmitting)
      ensures Consistent()
    {
      showOtherField := values.service == OtherServices;
      if values.service != OtherServices {
        values := values.(otherService := "");
      }
    }

    /** The user edits one field; choosing a service also runs the effect.
        The extra field can only be typed into while it is shown, and the
        service comes from the drop-down. */
    method Edit(f: Field, x: string)
      requires f == OtherService ==> showOtherField
      requires f == Service ==> x in ServiceOptions
      modifies this
      ensures f != Service ==> values == Set(old(values), f, x) && showOtherField == old(showOtherField)
      ensures f == Service ==> values == ServiceEffect(Set(old(values), f, x)) &&
                               showOtherField == (x == OtherServices)
      ensures isSubmitting == old(isSubmitting)
      ensures old(Consistent()) ==> Consistent()
    {
      values := Set(values, f, x);
      if f == Service {
        RunServiceEffect();
      }
    }

    /** A press of the submit button: `handleSubmit` validates the values and
        calls `onSubmit` only when they pass, which sets `isSubmitting`. */
    method Submit() returns (outcome: SubmitOutcome<ContactValues>)
      modifies this
      ensures values == old(values) && showOtherField == old(showOtherField)
      ensures old(isSubmitting) ==> outcome == Ignored && isSubmitting
      ensures !old(isSubmitting) && ContactErrors(old(values), isEmail) != [] ==>
                outcome == Rejected(ContactErrors(old(values), isEmail)) && !isSubmitting
      ensures !old(isSubmitting) && ContactErrors(old(values), isEmail) == [] ==>
                outcome == Sending(old(values)) && isSubmitting
    {
      if isSubmitting {
        return Ignored;
      }
      var errs := ContactErrors(values, isEmail);
      if errs != [] {
        return Rejected(errs);
      }
      isSubmitting := true;
      outcome := Sending(values);
    }

    /** The simulated request resolves: the success toast, `form.reset()`,
        hiding the extra field, and `isSubmitting` back to false. */
    method Settle()
      requires isSubmitting
      modifies this
      ensures values == Defaults && !showOtherField && !isSubmitting
      ensures Consistent() && SubmitEnabled()
    {
      values := Defaults;
      showOtherField := false;
      isSubmitting := false;
    }
  }

  /** A whole successful round: a valid inquiry is sent once, a second press
      while it is pending does nothing, and afterwards the form is empty and
      can be submitted again. */
  method SubmitValidInquiry(form: ContactForm) returns (first: SubmitOutcome<ContactValues>, second: SubmitOutcome<ContactValues>)
    requires !form.isSubmitting && ContactErrors(form.values, form.isEmail) == []
    modifies form
    ensures first == Sending(old(form.values))
    ensures second == Ignored
    ensures form.values == Defaults && !form.showOtherField && form.SubmitEnabled()
  {
    first := form.Submit();
    second := form.Submit();
    form.Settle();
  }
}
