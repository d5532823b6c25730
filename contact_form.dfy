/** The contact form's `submit` listener: it refuses the message unless name, email,
    service and message are all filled in, and otherwise acknowledges it and resets. */
module ContactForm {

  datatype Fields = Fields(name: string, email: string, service: string, message: string)

  /** The form's fields after the listener ran, and the alert it raised. */
  datatype Outcome = Outcome(fields: Fields, alert: string)

  const FillAllFields: string := "Please fill in all fields"
  const ThankYou: string := "Thank you for your message! We'll get back to you within 24 hours."

  /** The listener; `defaults` are the values the form's reset restores. */
  function Submit(f: Fields, defaults: Fields): (r: Outcome)
    ensures (f.name == "" || f.email == "" || f.service == "" || f.message == "") ==>
      r == Outcome(f, FillAllFields)
    ensures (f.name != "" && f.email != "" && f.service != "" && f.message != "") ==>
      r == Outcome(defaults, ThankYou)
  {
    if f.name == "" || f.email == "" || f.service == "" || f.message == "" then
      Outcome(f, FillAllFields)
    else
      Outcome(defaults, ThankYou)
  }

  /** The two alerts are told apart: a reader of the alert knows which branch ran. */
  lemma AcceptedExactlyWhenFilled(f: Fields, defaults: Fields)
    ensures Submit(f, defaults).alert == ThankYou <==>
      f.name != "" && f.email != "" && f.service != "" && f.message != ""
  {
    assert FillAllFields != ThankYou by {
      assert |FillAllFields| != |ThankYou|;
    }
  }
}
