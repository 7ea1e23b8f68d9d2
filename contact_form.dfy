/** The contact form of frontend/src/components/ContactForm.js: the four
    fields, the submit cycle (loading, error, success), the reset after a
    message is sent and "Send Another Message". The API outcome is an
    input. */
module ContactForm {
  import opened Wrappers
  import Http
  import ContactRoutes

  datatype Field = Name | Email | Phone | Message

  datatype FormData = FormData(name: string, email: string, phone: string, message: string)
  {
    function Get(k: Field): string
    {
      match k
      case Name => name
      case Email => email
      case Phone => phone
      case Message => message
    }

    /** `{ ...prev, [name]: value }`. */
    function Set(k: Field, v: string): (f: FormData)
      ensures f.Get(k) == v
      ensures forall k' | k' != k :: f.Get(k') == Get(k')
    {
      match k
      case Name => this.(name := v)
      case Email => this.(email := v)
      case Phone => this.(phone := v)
      case Message => this.(message := v)
    }
  }

  const EmptyForm := FormData("", "", "", "")

  const Fallback := "Failed to send message. Please try again."


  /** The body posted to the contact route: the form data itself. */
  function AsRequest(f: FormData): (r: ContactRoutes.ContactRequest)
    ensures r.name == Some(f.name) && r.email == Some(f.email)
    ensures r.phone == Some(f.phone) && r.message == Some(f.message)
  {
    ContactRoutes.ContactRequest(Some(f.name), Some(f.email), Some(f.phone), Some(f.message))
  }

  /** The route accepts the form exactly when name, e-mail and message are
      filled in, which is what the inputs marked `required` ask for; the
      phone does not matter. */
  lemma RouteAcceptsFilledForm(f: FormData, id: nat, now: int)
    ensures ContactRoutes.CreateResult(AsRequest(f), id, now).0.Success?
        <==> f.name != "" && f.email != "" && f.message != ""
  {
  }

  /** Nothing of the form is lost on the way: different forms make
      different requests, and a form the route accepts is stored with
      exactly the four values typed in, an empty phone as `''`. */
  lemma SentFormStoredAsTyped(f: FormData, g: FormData, id: nat, now: int)
    ensures AsRequest(f) == AsRequest(g) <==> f == g
    ensures f.name != "" && f.email != "" && f.message != "" ==>
      var c := ContactRoutes.CreateResult(AsRequest(f), id, now).1;
      && c.Some?
      && FormData(c.value.name.value, c.value.email.value, c.value.phone.value, c.value.message.value) == f
  {
    RouteAcceptsFilledForm(f, id, now);
  }

  /** The empty form, sent as it is, is refused with 400. */
  lemma EmptyFormRefused(id: nat, now: int)
    ensures ContactRoutes.CreateResult(AsRequest(EmptyForm), id, now)
         == (Http.Failure(400, ContactRoutes.MissingFields), None)
  {
  }

  /** What the API call ended with. */
  datatype Outcome = Sent | Failed(message: Option<string>)

  class ContactFormState {
    var formData: FormData
    var loading: bool
    var error: string
    var success: bool

    constructor ()
      ensures formData == EmptyForm && !loading && error == "" && !success
    {
      formData := EmptyForm;
      loading := false;
      error := "";
      success := false;
    }

    /** `handleChange`: that one field takes the value. */
    method HandleChange(k: Field, v: string)
      modifies this
      ensures formData == old(formData).Set(k, v)
      ensures loading == old(loading) && error == old(error) && success == old(success)
    {
      formData := formData.Set(k, v);
    }

    /** `handleSubmit`, first half: loading starts, the old error is
        cleared, and the form data goes out. */
    method StartSubmit() returns (sent: ContactRoutes.ContactRequest)
      modifies this
      ensures sent == AsRequest(formData) && formData == old(formData)
      ensures loading && error == "" && success == old(success)
    {
      loading := true;
      error := "";
      sent := AsRequest(formData);
    }

    /** `handleSubmit`, second half: on success the fields are cleared; on
        failure they are kept and the error is shown; loading ends either
        way. */
    method Finish(outcome: Outcome)
      modifies this
      ensures !loading
      ensures outcome.Sent? ==> success && formData == EmptyForm && error == old(error)
      ensures outcome.Failed? ==>
        success == old(success) && formData == old(formData) && error == Http.ErrorText(outcome.message, Fallback)
    {
      if outcome.Sent? {
        success := true;
        formData := EmptyForm;
      } else {
        error := Http.ErrorText(outcome.message, Fallback);
      }
      loading := false;
    }

    /** "Send Another Message": only the success flag changes. */
    method SendAnother()
      modifies this
      ensures !success
      ensures formData == old(formData) && loading == old(loading) && error == old(error)
    {
      success := false;
    }
  }
}
