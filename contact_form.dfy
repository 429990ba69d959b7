/** The contact form state of App in src/App.jsx: three text fields, a loading
    flag, an outcome popup and the never-set `sent` dialog flag. The email relay is
    an oracle: the caller passes the outcome of the send to FinishSubmit. */
module ContactForm {

  /** The `name` attributes of the three inputs that call handleChange. */
  datatype Field = Name | Email | Message

  datatype FormData = FormData(name: string, email: string, message: string)

  /** The payload handed to the relay. */
  datatype Payload = Payload(fromName: string, fromEmail: string, message: string)

  /** Popup colour: emerald when the message contains the check mark, red otherwise. */
  datatype Tone = Emerald | Red

  const EmptyForm := FormData("", "", "")

  const SuccessMessage: string := "\U{2705} Message Sent Successfully!"
  const FailureMessage: string := "\U{274C} Failed to Send Message. Please Try Again!"

  /** The value of one field. */
  function Get(f: FormData, field: Field): string {
    match field
    case Name => f.name
    case Email => f.email
    case Message => f.message
  }

  /** `{ ...s, [e.target.name]: e.target.value }`: only the named field changes. */
  function Change(f: FormData, field: Field, value: string): (r: FormData)
    ensures Get(r, field) == value
    ensures forall g :: g != field ==> Get(r, g) == Get(f, g)
  {
    match field
    case Name => f.(name := value)
    case Email => f.(email := value)
    case Message => f.(message := value)
  }

  /** Reads the form back out of a payload. */
  function FromPayload(p: Payload): FormData {
    FormData(p.fromName, p.fromEmail, p.message)
  }

  /** The payload built from the form on lines 548-552; it loses nothing. */
  function ToPayload(f: FormData): (p: Payload)
    ensures FromPayload(p) == f
  {
    Payload(f.name, f.email, f.message)
  }

  /** The popup message set for a send outcome. */
  function OutcomeMessage(ok: bool): (r: string)
    ensures r == SuccessMessage || r == FailureMessage
    ensures r == SuccessMessage <==> ok
  {
    if ok then SuccessMessage else FailureMessage
  }

  /** `popupMessage.includes("✅")` picks the popup colour. */
  function ToneOf(message: string): (r: Tone)
    ensures r == Emerald <==> exists k :: 0 <= k < |message| && message[k] == '\U{2705}'
  {
    if '\U{2705}' in message then Emerald else Red
  }

  /** The popup is emerald exactly for a successful send. */
  lemma ToneMatchesOutcome(ok: bool)
    ensures ToneOf(OutcomeMessage(ok)) == if ok then Emerald else Red
  {
  }

  /** The state of App that the form uses, updated in place by its setters. */
  class Form {
    var formData: FormData
    var loading: bool
    var popupVisible: bool
    var popupMessage: string
    var sent: bool

    /** `sent` is only ever assigned false; a visible popup shows an outcome message. */
    ghost predicate Valid()
      reads this
    {
      !sent &&
      (popupMessage == "" || popupMessage == SuccessMessage || popupMessage == FailureMessage) &&
      (popupVisible ==> popupMessage != "")
    }

    constructor ()
      ensures Valid()
      ensures formData == EmptyForm && !loading && !popupVisible && popupMessage == "" && !sent
    {
      formData := EmptyForm;
      loading, popupVisible, popupMessage, sent := false, false, "", false;
    }

    /** handleChange (lines 536-537). */
    method HandleChange(field: Field, value: string)
      requires Valid()
      modifies this
      ensures Valid()
      ensures formData == Change(old(formData), field, value)
      ensures loading == old(loading) && popupVisible == old(popupVisible)
      ensures popupMessage == old(popupMessage) && sent == old(sent)
    {
      formData := Change(formData, field, value);
    }

    /** The synchronous part of handleSubmit (lines 541-552): it shows the loading
        indicator, hides any popup and returns the payload handed to the relay. */
    method BeginSubmit() returns (payload: Payload)
      requires Valid()
      modifies this
      ensures Valid()
      ensures payload == ToPayload(formData) && FromPayload(payload) == formData
      ensures loading && !popupVisible
      ensures formData == old(formData) && popupMessage == old(popupMessage) && sent == old(sent)
    {
      loading := true;
      popupVisible := false;
      payload := Payload(formData.name, formData.email, formData.message);
    }

    /** The rest of handleSubmit once the relay answers (lines 556-566): success
        clears the fields, failure keeps them; either way the popup shows the
        outcome and loading ends. */
    method FinishSubmit(ok: bool)
      requires Valid()
      modifies this
      ensures Valid()
      ensures formData == if ok then EmptyForm else old(formData)
      ensures popupVisible && popupMessage == OutcomeMessage(ok)
      ensures !loading && sent == old(sent)
    {
      if ok {
        popupMessage := SuccessMessage;
        popupVisible := true;
        formData := FormData("", "", "");
      } else {
        popupMessage := FailureMessage;
        popupVisible := true;
      }
      loading := false;
    }

    /** The auto-hide timer (line 567) and the popup's Close button (line 866). */
    method HidePopup()
      requires Valid()
      modifies this
      ensures Valid()
      ensures !popupVisible
      ensures formData == old(formData) && loading == old(loading)
      ensures popupMessage == old(popupMessage) && sent == old(sent)
    {
      popupVisible := false;
    }

    /** The Close button of the `sent` dialog (line 897). */
    method CloseSentDialog()
      requires Valid()
      modifies this
      ensures Valid()
      ensures !sent
      ensures formData == old(formData) && loading == old(loading)
      ensures popupVisible == old(popupVisible) && popupMessage == old(popupMessage)
    {
      sent := false;
    }
  }
}
