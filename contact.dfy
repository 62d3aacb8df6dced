/** The contact page's enquiry form: three required and two optional text
    fields, cleared after a message is sent. */
module Contact {

  datatype ContactForm = ContactForm(
    name: string,
    email: string,
    organization: string,
    inquiryType: string,
    message: string)

  const EmptyForm := ContactForm("", "", "", "", "")

  datatype Field = Name | Email | Organization | InquiryType | Message

  function Get(f: ContactForm, field: Field): string {
    match field
    case Name => f.name
    case Email => f.email
    case Organization => f.organization
    case InquiryType => f.inquiryType
    case Message => f.message
  }

  /** `handleInputChange(field, value)`: the named field takes the value and
      the others keep theirs. */
  function Apply(f: ContactForm, field: Field, value: string): (r: ContactForm)
    ensures Get(r, field) == value
    ensures forall g :: g != field ==> Get(r, g) == Get(f, g)
  {
    match field
    case Name => f.(name := value)
    case Email => f.(email := value)
    case Organization => f.(organization := value)
    case InquiryType => f.(inquiryType := value)
    case Message => f.(message := value)
  }

  /** Field-wise equality is equality of forms. */
  lemma FormsEqualByFields(f: ContactForm, g: ContactForm)
    requires forall field :: Get(f, field) == Get(g, field)
    ensures f == g
  {
    assert Get(f, Name) == Get(g, Name) && Get(f, Email) == Get(g, Email);
    assert Get(f, Organization) == Get(g, Organization) && Get(f, InquiryType) == Get(g, InquiryType);
    assert Get(f, Message) == Get(g, Message);
  }

  /** Writing back a field's own value changes nothing. */
  lemma ApplyOwnValue(f: ContactForm, field: Field)
    ensures Apply(f, field, Get(f, field)) == f
  {
    FormsEqualByFields(Apply(f, field, Get(f, field)), f);
  }

  /** The fields the submit handler insists on. */
  predicate Required(field: Field) {
    field == Name || field == Email || field == Message
  }

  datatype SubmitOutcome = Rejected | Sent

  /** The required-field check of `handleSubmit`. */
  function Check(f: ContactForm): (r: SubmitOutcome)
    ensures r == Sent <==> forall g :: Required(g) ==> Get(f, g) != ""
  {
    if f.name == "" || f.email == "" || f.message == "" then
      assert Get(f, Name) == "" || Get(f, Email) == "" || Get(f, Message) == "";
      Rejected
    else
      Sent
  }

  /** The form after a submit: a rejected one returns before the reset, a
      sent one clears every field. */
  function AfterSubmit(f: ContactForm): (r: ContactForm)
    ensures Check(f) == Rejected ==> r == f
    ensures Check(f) == Sent ==> forall g :: Get(r, g) == ""
  {
    if Check(f) == Sent then EmptyForm else f
  }

  /** The optional fields never decide the outcome. */
  lemma OptionalFieldsIgnored(f: ContactForm, field: Field, value: string)
    requires !Required(field)
    ensures Check(Apply(f, field, value)) == Check(f)
  {
  }

  /** After a message is sent the form is the initial one again, so
      submitting it once more is rejected. */
  lemma ResendIsRejected(f: ContactForm)
    requires Check(f) == Sent
    ensures AfterSubmit(f) == EmptyForm
    ensures Check(AfterSubmit(f)) == Rejected
  {
  }

  class ContactPage {
    var formData: ContactForm

    constructor ()
      ensures formData == EmptyForm
    {
      formData := EmptyForm;
    }

    method HandleInputChange(field: Field, value: string)
      modifies this
      ensures formData == Apply(old(formData), field, value)
    {
      formData := Apply(formData, field, value);
    }

    method HandleSubmit() returns (outcome: SubmitOutcome)
      modifies this
      ensures outcome == Check(old(formData))
      ensures formData == AfterSubmit(old(formData))
    {
      if formData.name == "" || formData.email == "" || formData.message == "" {
        outcome := Rejected;
        return;
      }
      outcome := Sent;
      formData := ContactForm("", "", "", "", "");
    }
  }
}
