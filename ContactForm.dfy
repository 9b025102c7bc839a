/** The contact page's form (src/pages/Contact.tsx): a record edited one field
    at a time, a required-field check, and a simulated send that resets the
    record to its initial value. */
module ContactForm {
  import opened Common

  datatype ContactData = ContactData(
    name: string, email: string, phone: string, subject: string, message: string, kind: string)

  /** The initial `formData`: every text field empty, inquiry type "general". */
  const InitialForm: ContactData := ContactData("", "", "", "", "", "general")

  /** The form fields; `Kind` is the inquiry-type select (`type` in the form). */
  datatype Field = Name | Email | Phone | Subject | Message | Kind

  function FieldOf(d: ContactData, f: Field): string
  {
    match f
    case Name => d.name
    case Email => d.email
    case Phone => d.phone
    case Subject => d.subject
    case Message => d.message
    case Kind => d.kind
  }

  /** `{ ...prev, [field]: value }`: the named field takes the value, every
      other field keeps its own. */
  function WithField(d: ContactData, f: Field, value: string): (r: ContactData)
    ensures FieldOf(r, f) == value
    ensures forall g: Field :: g != f ==> FieldOf(r, g) == FieldOf(d, g)
  {
    match f
    case Name => d.(name := value)
    case Email => d.(email := value)
    case Phone => d.(phone := value)
    case Subject => d.(subject := value)
    case Message => d.(message := value)
    case Kind => d.(kind := value)
  }

  /** The required-field check of `handleSubmit`: name, e-mail and message
      must be non-empty strings; they are not trimmed. */
  predicate Required(f: Field)
  {
    f == Name || f == Email || f == Message
  }

  function RequiredFilled(d: ContactData): (b: bool)
    ensures b <==> forall f: Field :: Required(f) ==> FieldOf(d, f) != ""
  {
    assert FieldOf(d, Name) == d.name && FieldOf(d, Email) == d.email && FieldOf(d, Message) == d.message;
    d.name != "" && d.email != "" && d.message != ""
  }

  /** Acceptance depends on the three required fields and on nothing else:
      phone, subject and inquiry type are optional. */
  lemma OptionalFieldsIgnored(d: ContactData, f: Field, value: string)
    requires f in {Phone, Subject, Kind}
    ensures RequiredFilled(WithField(d, f, value)) == RequiredFilled(d)
  {
    assert FieldOf(WithField(d, f, value), Name) == d.name;
    assert FieldOf(WithField(d, f, value), Email) == d.email;
    assert FieldOf(WithField(d, f, value), Message) == d.message;
  }

  /** Emptying a required field makes the form unsendable, whatever the rest
      holds; white space alone is enough to fill one. */
  lemma RequiredFieldsDecide(d: ContactData)
    ensures !RequiredFilled(WithField(d, Message, ""))
    ensures !RequiredFilled(WithField(d, Name, "")) && !RequiredFilled(WithField(d, Email, ""))
    ensures RequiredFilled(ContactData(" ", " ", "", "", " ", "general"))
    ensures !RequiredFilled(InitialForm)
  {
    assert FieldOf(WithField(d, Message, ""), Message) == "";
    assert FieldOf(WithField(d, Name, ""), Name) == "";
    assert FieldOf(WithField(d, Email, ""), Email) == "";
  }

  /** The keys of the inquiry-type options, in table order. */
  const InquiryTypes: seq<string> := ["general", "support", "partnership", "feedback"]

  /** The inquiry-type options of the select, as `Object.entries` lists them
      for one language: pairs of key and label. */
  function InquiryOptions(l: Lang): (r: seq<(string, string)>)
    ensures |r| == |InquiryTypes|
    ensures forall i :: 0 <= i < |r| ==> r[i].0 == InquiryTypes[i]
  {
    match l
    case En => [("general", "General Inquiry"), ("support", "Technical Support"),
                ("partnership", "Partnership"), ("feedback", "Feedback")]
    case Hi => [("general", "सामान्य पूछताछ"), ("support", "तकनीकी सहायता"),
                ("partnership", "साझेदारी"), ("feedback", "प्रतिक्रिया")]
  }

  /** The initial inquiry type is one of the options, in both languages. */
  lemma InitialKindIsAnOption(l: Lang)
    ensures exists i :: 0 <= i < |InquiryOptions(l)| && InquiryOptions(l)[i].0 == InitialForm.kind
  {
    assert InquiryOptions(l)[0].0 == "general";
  }

  class ContactPage {
    var formData: ContactData
    var isSubmitting: bool
    /** The simulated sends scheduled and not yet finished. */
    var pendingSends: nat

    constructor ()
      ensures formData == InitialForm && !isSubmitting && pendingSends == 0
    {
      formData := InitialForm;
      isSubmitting := false;
      pendingSends := 0;
    }

    /** `handleInputChange`: only the named field changes. */
    method HandleInputChange(f: Field, value: string)
      modifies this`formData
      ensures formData == WithField(old(formData), f, value)
    {
      formData := WithField(formData, f, value);
    }

    /** `handleSubmit`: a form with an empty required field is rejected and
        nothing changes, so no send starts; otherwise `isSubmitting` is set
        and a send is scheduled. */
    method HandleSubmit() returns (accepted: bool)
      modifies this`isSubmitting, this`pendingSends
      ensures accepted == RequiredFilled(formData)
      ensures !accepted ==> isSubmitting == old(isSubmitting) && pendingSends == old(pendingSends)
      ensures accepted ==> isSubmitting && pendingSends == old(pendingSends) + 1
    {
      accepted := RequiredFilled(formData);
      if accepted {
        isSubmitting := true;
        pendingSends := pendingSends + 1;
      }
    }

    /** A scheduled send finishes: `isSubmitting` is cleared and the form is
        reset to its initial value. */
    method SendDone()
      requires pendingSends > 0
      modifies this
      ensures !isSubmitting && formData == InitialForm
      ensures pendingSends == old(pendingSends) - 1
    {
      isSubmitting := false;
      formData := InitialForm;
      pendingSends := pendingSends - 1;
    }
  }
}
