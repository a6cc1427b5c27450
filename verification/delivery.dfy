/** The delivery step (src/app/diagnostic/delivery/page.tsx): its checks,
    the order in which their errors are shown, the submit button and the
    redirect guard. The page reads the delivery method and the phone from
    the wizard state, which never holds them (the hook has no such fields
    and hands out no setters for them); here they are inputs, `None` when
    unset. */
module DeliveryPage {

  import opened Wrappers
  import opened Domain
  import opened Validation
  import opened Endpoint
  import opened Wizard
  import ContactInput

  /** `validateEmail`: not empty, and the address pattern. */
  predicate ValidateEmail(s: WizardState) {
    s.email != [] && HasEmailShape(s.email)
  }

  /** `validatePhone`: present and not empty, and after removing all
      whitespace `+` followed by at least ten digits. */
  predicate ValidatePhone(phone: Option<string>) {
    phone.Some? && phone.value != []
    && ContactInput.IsPhoneNumber(ContactInput.RemoveWhitespace(phone.value))
  }

  predicate ValidateIdentity(s: WizardState) {
    s.firstName != [] && s.lastName != [] && s.brandName != []
  }

  predicate ValidateDelivery(s: WizardState, via: Option<DeliveryMethod>, phone: Option<string>) {
    match via
    case None => false
    case Some(ByEmail) => ValidateEmail(s)
    case Some(ByWhatsApp) => ValidatePhone(phone)
  }

  /** `canSubmit`. */
  predicate CanSubmit(s: WizardState, via: Option<DeliveryMethod>, phone: Option<string>) {
    ValidateIdentity(s) && ValidateDelivery(s, via, phone)
  }

  /** The page's own state. */
  datatype Page = Page(isSubmitting: bool, isSubmitted: bool, error: string)

  const Opened: Page := Page(false, false, "")

  const IdentityMessage: string := "Please fill in all required fields"
  const MethodMessage: string := "Please select a delivery method"
  const EmailMessage: string := "Please enter a valid email address"
  const PhoneMessage: string := "Please enter a valid WhatsApp number with country code"

  /** The first failing check of `handleSubmit`, or `None` when all pass. */
  function Blocker(s: WizardState, via: Option<DeliveryMethod>, phone: Option<string>): (b: Option<string>)
    ensures b.None? <==> CanSubmit(s, via, phone)
  {
    if !ValidateIdentity(s) then Some(IdentityMessage)
    else if via.None? then Some(MethodMessage)
    else if !ValidateDelivery(s, via, phone) then
      Some(if via == Some(ByEmail) then EmailMessage else PhoneMessage)
    else None
  }

  /** `handleSubmit`: a failing check shows its message and stops;
      otherwise `submit` runs, and what it throws becomes the message. */
  function HandleSubmit(p: Page, s: WizardState, via: Option<DeliveryMethod>,
                        phone: Option<string>, server: Submission -> Reply): (r: (Page, WizardState))
    ensures Blocker(s, via, phone).Some? ==>
              r == (p.(error := Blocker(s, via, phone).value), s)
    ensures Blocker(s, via, phone).None? ==> r.1 == Submit(s, server).1
  {
    match Blocker(s, via, phone)
    case Some(message) => (p.(error := message), s)
    case None =>
      var (outcome, t) := Submit(s, server);
      match outcome
      case Thrown(m) => (p.(isSubmitting := false, error := m), t)
      case Submitted => (p.(isSubmitting := true, isSubmitted := true, error := ""), t)
  }

  /** `nextDisabled`. */
  predicate NextDisabled(p: Page, s: WizardState, via: Option<DeliveryMethod>, phone: Option<string>) {
    !CanSubmit(s, via, phone) || p.isSubmitting
  }

  /** The effect at delivery/page.tsx:30-34: once loaded and not yet
      submitted, a missing path or no answers sends the user back. */
  predicate MustRedirect(isLoaded: bool, p: Page, s: WizardState) {
    isLoaded && !p.isSubmitted && (s.path.None? || |s.answers.Keys| == 0)
  }

  /** The page as written: the delivery method and phone it reads are
      always undefined. */
  function HandleSubmitAsWritten(p: Page, s: WizardState, server: Submission -> Reply): (Page, WizardState) {
    HandleSubmit(p, s, None, None, server)
  }
}

/** Properties of the delivery step. */
module DeliveryPageProperties {

  import opened Wrappers
  import opened Domain
  import opened Validation
  import opened Endpoint
  import opened Wizard
  import opened DeliveryPage
  import ContactInput

  /** The checks report in a fixed order, and a failing check neither
      changes the wizard nor depends on the server. */
  lemma ErrorPrecedence(p: Page, s: WizardState, via: Option<DeliveryMethod>, phone: Option<string>,
                        server1: Submission -> Reply, server2: Submission -> Reply)
    ensures !ValidateIdentity(s) ==> HandleSubmit(p, s, via, phone, server1).0.error == IdentityMessage
    ensures ValidateIdentity(s) && via.None? ==>
              HandleSubmit(p, s, via, phone, server1).0.error == MethodMessage
    ensures ValidateIdentity(s) && via == Some(ByEmail) && !ValidateEmail(s) ==>
              HandleSubmit(p, s, via, phone, server1).0.error == EmailMessage
    ensures ValidateIdentity(s) && via == Some(ByWhatsApp) && !ValidatePhone(phone) ==>
              HandleSubmit(p, s, via, phone, server1).0.error == PhoneMessage
    ensures !CanSubmit(s, via, phone) ==>
              HandleSubmit(p, s, via, phone, server1).1 == s
              && HandleSubmit(p, s, via, phone, server1) == HandleSubmit(p, s, via, phone, server2)
  {
  }

  /** With every check passing, the page calls `submit`: a throw shows its
      message and re-enables the button; success marks the page submitted. */
  lemma PassingChecksSubmit(p: Page, s: WizardState, via: Option<DeliveryMethod>,
                            phone: Option<string>, server: Submission -> Reply)
    requires CanSubmit(s, via, phone)
    ensures var (q, t) := HandleSubmit(p, s, via, phone, server);
      && t == Submit(s, server).1
      && (Submit(s, server).0.Thrown? ==>
            q.error == Submit(s, server).0.message && !q.isSubmitting && q.error != [])
      && (Submit(s, server).0 == Submitted ==> q.isSubmitted && t == Initial)
  {
  }

  /** The button and the handler agree: the button is enabled (when not
      submitting) exactly when the handler would pass every check. */
  lemma ButtonMatchesHandler(p: Page, s: WizardState, via: Option<DeliveryMethod>, phone: Option<string>)
    requires !p.isSubmitting
    ensures !NextDisabled(p, s, via, phone) <==> Blocker(s, via, phone).None?
  {
  }

  /** The page's checks agree with the contact field's. */
  lemma ChecksAgreeWithField(s: WizardState, phone: string)
    ensures ValidateEmail(s) <==> ContactInput.ValidateEmail(s.email)
    ensures ValidatePhone(Some(phone)) <==> ContactInput.ValidatePhone(phone)
  {
    if s.email == [] {
      assert !HasEmailShape(s.email);
    }
    if phone == [] {
      assert ContactInput.RemoveWhitespace(phone) == [];
    }
  }

  /** After a successful submission the wizard is reset, yet the page does
      not bounce back to the start: the submitted flag suppresses it. */
  lemma SubmittedNotRedirected(p: Page, s: WizardState, via: Option<DeliveryMethod>,
                               phone: Option<string>, server: Submission -> Reply)
    requires CanSubmit(s, via, phone) && Submit(s, server).0 == Submitted
    ensures var (q, t) := HandleSubmit(p, s, via, phone, server);
      t == Initial && MustRedirect(true, Opened, t) && !MustRedirect(true, q, t)
  {
  }

  /** As written the page can never submit: with no delivery method the
      button is always disabled and the handler always stops at "Please
      select a delivery method" (or the identity message before it). */
  lemma AsWrittenNeverSubmits(p: Page, s: WizardState, server: Submission -> Reply)
    ensures !CanSubmit(s, None, None)
    ensures HandleSubmitAsWritten(p, s, server).1 == s
    ensures HandleSubmitAsWritten(p, s, server).0.error
         == (if ValidateIdentity(s) then MethodMessage else IdentityMessage)
  {
  }

  /** With the method and phone supplied, a lead whose identity and email
      pass reaches `submit`. */
  lemma EmailDeliveryReachesSubmit(p: Page, s: WizardState, server: Submission -> Reply)
    requires ValidateIdentity(s) && ValidateEmail(s)
    ensures HandleSubmit(p, s, Some(ByEmail), None, server).1 == Submit(s, server).1
    ensures Blocker(s, Some(ByEmail), None).None?
  {
  }
}
