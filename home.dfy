/** The home page: the quick-quote form in the hero section (the contact
    form's rules without the extra "Other Services" field) and the
    testimonial slideshow, which a timer advances cyclically and whose dots
    jump to one testimonial. */
module Home {
  import opened FormRules
  import Contact
  import Cycle

  datatype HomeService = HomeService(title: string, description: string, icon: string, features: seq<string>)

  const HomeServices: seq<HomeService> := [
    HomeService("Residential Cleaning", "Professional home cleaning services tailored to your needs",
                "🏠", ["Regular cleaning", "Deep cleaning", "Move-in/out cleaning"]),
    HomeService("Commercial Cleaning", "Keep your business premises spotless and professional",
                "🏢", ["Office cleaning", "Retail spaces", "Medical facilities"]),
    HomeService("Specialized Services", "Expert cleaning for unique situations and requirements",
                "✨", ["Post-construction", "Carpet cleaning", "Window cleaning"])
  ]

  datatype Testimonial = Testimonial(name: string, role: string, content: string, rating: int, image: string)

  const Testimonials: seq<Testimonial> := [
    Testimonial("Sarah Johnson", "Homeowner",
      "SparklePro transformed my home! Their attention to detail is unmatched, and the team is always professional and reliable.",
      5, "https://images.pexels.com/photos/1239291/pexels-photo-1239291.jpeg?auto=compress&cs=tinysrgb&w=100&h=100&fit=crop"),
    Testimonial("Michael Chen", "Business Owner",
      "We've been using SparklePro for our office cleaning for over a year. Consistently excellent service and competitive pricing.",
      5, "https://images.pexels.com/photos/2379004/pexels-photo-2379004.jpeg?auto=compress&cs=tinysrgb&w=100&h=100&fit=crop"),
    Testimonial("Emily Rodriguez", "Property Manager",
      "Professional, thorough, and trustworthy. SparklePro handles all our move-out cleanings with exceptional results.",
      5, "https://images.pexels.com/photos/1181519/pexels-photo-1181519.jpeg?auto=compress&cs=tinysrgb&w=100&h=100&fit=crop")
  ]

  /** The entries of the hero form's service drop-down: the services' titles. */
  function ServiceOptions(): (titles: seq<string>)
    ensures |titles| == |HomeServices|
    ensures forall i :: 0 <= i < |titles| ==> titles[i] == HomeServices[i].title
  {
    seq(|HomeServices|, i requires 0 <= i < |HomeServices| => HomeServices[i].title)
  }

  /** The drop-down lists the three titles in order, and picking any of them
      satisfies the service rule. */
  lemma ServiceOptionsAreTitles()
    ensures ServiceOptions() == ["Residential Cleaning", "Commercial Cleaning", "Specialized Services"]
    ensures forall o :: o in ServiceOptions() ==> |o| >= ServiceMinLength
  {
    var t := ServiceOptions();
    assert t[0] == "Residential Cleaning" && t[1] == "Commercial Cleaning" && t[2] == "Specialized Services";
  }

  datatype HeroValues = HeroValues(name: string, email: string, phone: string, service: string, message: string)

  /** The hero form's `defaultValues`, which `heroForm.reset()` restores. */
  const HeroDefaults := HeroValues("", "", "", "", "")

  /** The value of one field of the hero form (which has no extra field). */
  function Get(v: HeroValues, f: Field): string
    requires f != OtherService
  {
    match f
    case Name => v.name
    case Email => v.email
    case Phone => v.phone
    case Service => v.service
    case Message => v.message
  }

  /** The values after the user types x into field f. */
  function Set(v: HeroValues, f: Field, x: string): (w: HeroValues)
    requires f != OtherService
    ensures Get(w, f) == x
    ensures forall g :: g != f && g != OtherService ==> Get(w, g) == Get(v, g)
  {
    match f
    case Name => v.(name := x)
    case Email => v.(email := x)
    case Phone => v.(phone := x)
    case Service => v.(service := x)
    case Message => v.(message := x)
  }

  /** `heroFormSchema`: the errors zod reports, in schema order. The hero
      form has no extra field, so no error can concern one. */
  function HeroErrors(v: HeroValues, isEmail: string -> bool): (errs: seq<FieldError>)
    ensures forall e :: e in errs ==> e.field in {Name, Email, Phone, Service, Message}
    ensures errs == [] <==>
              |v.name| >= 2 && isEmail(v.email) && |v.phone| >= 10 && v.service != "" && |v.message| >= 10
  {
    InquiryErrors(v.name, v.email, v.phone, v.service, v.message, isEmail)
  }

  /** The hero form applies the contact form's rules: whatever the contact
      form's extra field holds, both report the same errors. */
  lemma HeroRulesAreContactRules(v: HeroValues, other: string, isEmail: string -> bool)
    ensures HeroErrors(v, isEmail) ==
            Contact.ContactErrors(Contact.ContactValues(v.name, v.email, v.phone, v.service, other, v.message), isEmail)
  {
  }

  /** The all-empty defaults are rejected on every length rule. */
  lemma HeroDefaultsRejected(isEmail: string -> bool)
    ensures var errs := HeroErrors(HeroDefaults, isEmail);
            HasError(errs, Name) && HasError(errs, Phone) && HasError(errs, Service) &&
            HasError(errs, Message) && errs != []
  {
  }

  /** One tick of the slideshow timer: `(prev + 1) % testimonials.length`. */
  function NextTestimonial(prev: int): (next: int)
    requires 0 <= prev < |Testimonials|
    ensures 0 <= next < |Testimonials|
  {
    Cycle.NextIndex(prev, |Testimonials|)
  }

  /** Three ticks show the same testimonial again. */
  lemma ThreeTicksReturn(i: int)
    requires 0 <= i < |Testimonials|
    ensures NextTestimonial(NextTestimonial(NextTestimonial(i))) == i
    ensures Cycle.Advance(i, |Testimonials|, 3) == i
  {
    Cycle.FullCycle(i, |Testimonials|);
  }

  /** Whether dot idx is drawn highlighted (`idx === testimonialIndex`). */
  predicate DotActive(idx: int, current: int)
  {
    idx == current
  }

  /** Exactly one dot is highlighted: the current testimonial's. */
  lemma ExactlyOneDotActive(current: int)
    requires 0 <= current < |Testimonials|
    ensures (set idx | 0 <= idx < |Testimonials| && DotActive(idx, current)) == {current}
  {
  }

  /** The page's state: the hero form's values, whether a submission is
      pending, and the testimonial on show. */
  class HomePage {
    const isEmail: string -> bool
    var heroValues: HeroValues
    var isSubmitting: bool
    var testimonialIndex: int

    /** `testimonials[testimonialIndex]` is always defined. */
    predicate Valid()
      reads this
    {
      0 <= testimonialIndex < |Testimonials|
    }

    predicate SubmitEnabled()
      reads this
    {
      !isSubmitting
    }

    constructor (isEmail: string -> bool)
      ensures this.isEmail == isEmail
      ensures heroValues == HeroDefaults && !isSubmitting && testimonialIndex == 0
      ensures Valid()
    {
      this.isEmail := isEmail;
      heroValues := HeroDefaults;
      isSubmitting := false;
      testimonialIndex := 0;
    }

    /** The interval callback. */
    method Tick()
      requires Valid()
      modifies this
      ensures testimonialIndex == NextTestimonial(old(testimonialIndex))
      ensures heroValues == old(heroValues) && isSubmitting == old(isSubmitting)
      ensures Valid()
    {
      testimonialIndex := NextTestimonial(testimonialIndex);
    }

    /** A click on dot idx. */
    method SelectDot(idx: int)
      requires 0 <= idx < |Testimonials|
      modifies this
      ensures testimonialIndex == idx && DotActive(idx, testimonialIndex)
      ensures forall j :: 0 <= j < |Testimonials| && j != idx ==> !DotActive(j, testimonialIndex)
      ensures heroValues == old(heroValues) && isSubmitting == old(isSubmitting)
      ensures Valid()
    {
      testimonialIndex := idx;
    }

    /** The user edits one field of the hero form; the service comes from
        the drop-down. */
    method Edit(f: Field, x: string)
      requires f != OtherService
      requires f == Service ==> x in ServiceOptions()
      modifies this
      ensures heroValues == Set(old(heroValues), f, x)
      ensures isSubmitting == old(isSubmitting) && testimonialIndex == old(testimonialIndex)
    {
      heroValues := Set(heroValues, f, x);
    }

    /** A press of "Request a Quote": validation first, then `onHeroSubmit`
        sets `isSubmitting`; ignored while a request is pending. */
    method Submit() returns (outcome: SubmitOutcome<HeroValues>)
      modifies this
      ensures heroValues == old(heroValues) && testimonialIndex == old(testimonialIndex)
      ensures old(isSubmitting) ==> outcome == Ignored && isSubmitting
      ensures !old(isSubmitting) && HeroErrors(old(heroValues), isEmail) != [] ==>
                outcome == Rejected(HeroErrors(old(heroValues), isEmail)) && !isSubmitting
      ensures !old(isSubmitting) && HeroErrors(old(heroValues), isEmail) == [] ==>
                outcome == Sending(old(heroValues)) && isSubmitting
    {
      if isSubmitting {
        return Ignored;
      }
      var errs := HeroErrors(heroValues, isEmail);
      if errs != [] {
        return Rejected(errs);
      }
      isSubmitting := true;
      outcome := Sending(heroValues);
    }

    /** The simulated request resolves: the success toast, `heroForm.reset()`
        and `isSubmitting` back to false. */
    method Settle()
      requires isSubmitting
      modifies this
      ensures heroValues == HeroDefaults && !isSubmitting && SubmitEnabled()
      ensures testimonialIndex == old(testimonialIndex)
    {
      heroValues := HeroDefaults;
      isSubmitting := false;
    }
  }

  /** Three timer ticks bring the slideshow back to the testimonial it
      started from. */
  method ThreeTicks(page: HomePage)
    requires page.Valid()
    modifies page
    ensures page.testimonialIndex == old(page.testimonialIndex) && page.Valid()
    ensures page.heroValues == old(page.heroValues) && page.isSubmitting == old(page.isSubmitting)
  {
    page.Tick();
    page.Tick();
    page.Tick();
    ThreeTicksReturn(old(page.testimonialIndex));
  }
}
