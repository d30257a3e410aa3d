/**
 * The contact page's form: `name`, `email` and `message` are required
 * (tested for the empty string, without trimming), `subject` is optional,
 * and a successful submission clears the form.
 */
module ContactPage {

  datatype ContactForm = ContactForm(name: string, email: string, subject: string, message: string)

  /** The names of the form's inputs. */
  datatype ContactField = Name | Email | Subject | Message

  const EmptyForm: ContactForm := ContactForm("", "", "", "")

  /** `!formData.name || !formData.email || !formData.message`: a required field is the empty string. */
  predicate MissingRequired(form: ContactForm)
  {
    form.name == "" || form.email == "" || form.message == ""
  }

  /** The form with one field replaced, as the inputs' `onChange` handlers build it. */
  function WithField(form: ContactForm, field: ContactField, value: string): ContactForm
  {
    match field
    case Name => form.(name := value)
    case Email => form.(email := value)
    case Subject => form.(subject := value)
    case Message => form.(message := value)
  }

  /** The subject never decides acceptance: any subject, the empty one included, gives the same verdict. */
  lemma SubjectIsOptional(form: ContactForm, subject: string)
    ensures MissingRequired(WithField(form, Subject, subject)) == MissingRequired(form)
  {
  }

  /** Emptiness is the only test: a name, email and message of spaces are accepted; an empty one is not. */
  lemma BlankFieldsAreAccepted(spaces: string)
    requires spaces != "" && forall i :: 0 <= i < |spaces| ==> spaces[i] == ' '
    ensures !MissingRequired(ContactForm(spaces, spaces, "", spaces))
    ensures MissingRequired(ContactForm("", spaces, spaces, spaces))
  {
  }

  /** The page's form state. */
  class Contact {
    var formData: ContactForm

    constructor ()
      ensures formData == EmptyForm
    {
      formData := EmptyForm;
    }

    /** An input's `onChange`: only the named field takes the new value. */
    method SetField(field: ContactField, value: string)
      modifies this
      ensures formData == WithField(old(formData), field, value)
    {
      formData := WithField(formData, field, value);
    }

    /**
     * `handleSubmit`: a form missing a required field is rejected and left as it
     * is; otherwise the message is sent (the success toast) and every field is cleared.
     */
    method HandleSubmit() returns (sent: bool)
      modifies this
      ensures sent <==> !MissingRequired(old(formData))
      ensures formData == if sent then EmptyForm else old(formData)
    {
      if MissingRequired(formData) {
        return false;
      }
      formData := EmptyForm;
      return true;
    }
  }
}
