/** The contact form (src/components/ContactCTA.tsx): the `formData` record,
    its change handler and its submit handler. */
module ContactCTA {
  import opened Wrappers

  /** The value of `formData`: the four fields the form renders, and any other
      key a change event has added through `[e.target.name]`. */
  datatype FormData = FormData(name: string, email: string, company: string, message: string,
                               extra: map<string, string>)

  /** The four fields of the form. */
  predicate IsFormField(key: string) {
    key == "name" || key == "email" || key == "company" || key == "message"
  }

  /** `{ name: "", email: "", company: "", message: "" }`. */
  const EmptyForm := FormData("", "", "", "", map[])

  /** `formData[key]`: the value stored under `key`, if any. */
  function Field(d: FormData, key: string): Option<string> {
    if key == "name" then Some(d.name)
    else if key == "email" then Some(d.email)
    else if key == "company" then Some(d.company)
    else if key == "message" then Some(d.message)
    else if key in d.extra then Some(d.extra[key])
    else None
  }

  /** `{...formData, [key]: value}`: `key` now holds `value` and every other
      key keeps what it held. */
  function WithField(d: FormData, key: string, value: string): (r: FormData)
    ensures Field(r, key) == Some(value)
    ensures forall other :: other != key ==> Field(r, other) == Field(d, other)
  {
    if key == "name" then d.(name := value)
    else if key == "email" then d.(email := value)
    else if key == "company" then d.(company := value)
    else if key == "message" then d.(message := value)
    else d.(extra := d.extra[key := value])
  }

  /** The empty form holds `""` in each of the four fields and nothing else. */
  lemma EmptyFormFields(key: string)
    ensures Field(EmptyForm, key) == if IsFormField(key) then Some("") else None
  {
  }

  /** A change to one of the four fields never adds a key. */
  lemma FormFieldChangeKeepsShape(d: FormData, key: string, value: string)
    requires IsFormField(key)
    ensures WithField(d, key, value).extra == d.extra
  {
  }

  /** The toast that `handleSubmit` shows. */
  datatype Toast = Toast(title: string, description: string)

  const SentToast := Toast("Message Sent!",
    "We'll get back to you within 24 hours to discuss your automation needs.")

  /** The component with its `formData` state. */
  class ContactForm {
    var name: string
    var email: string
    var company: string
    var message: string
    var extra: map<string, string>

    function Data(): FormData
      reads this
    {
      FormData(name, email, company, message, extra)
    }

    /** `useState({ name: "", email: "", company: "", message: "" })`. */
    constructor ()
      ensures Data() == EmptyForm
    {
      name, email, company, message := "", "", "", "";
      extra := map[];
    }

    /** `handleInputChange`: the field named by the event's target takes the
        target's value; nothing else changes. */
    method HandleInputChange(targetName: string, targetValue: string)
      modifies this
      ensures Data() == WithField(old(Data()), targetName, targetValue)
    {
      if targetName == "name" {
        name := targetValue;
      } else if targetName == "email" {
        email := targetValue;
      } else if targetName == "company" {
        company := targetValue;
      } else if targetName == "message" {
        message := targetValue;
      } else {
        extra := extra[targetName := targetValue];
      }
    }

    /** `handleSubmit`: logs the record, always shows the success toast, and
        resets every field to `""`, whatever the record held. */
    method HandleSubmit() returns (submitted: FormData, toast: Toast)
      modifies this
      ensures submitted == old(Data())
      ensures toast == SentToast
      ensures Data() == EmptyForm
    {
      submitted := Data();
      toast := SentToast;
      name, email, company, message := "", "", "", "";
      extra := map[];
    }
  }

  /** Submitting twice leaves the same record as submitting once, and each
      submit shows the success toast. */
  method SubmitTwice(form: ContactForm) returns (first: Toast, second: Toast)
    modifies form
    ensures form.Data() == EmptyForm
    ensures first == SentToast && second == SentToast
  {
    var sent;
    sent, first := form.HandleSubmit();
    sent, second := form.HandleSubmit();
  }
}
