/**
 * The sign-up form (src/Auth/Signup.jsx): five text fields, an error line and a loading
 * flag. Submitting clears the error, checks the fields in a fixed order and, when they pass,
 * sends the form and waits for the server's answer.
 */
module Signup {
  import opened Wrappers
  import Text
  import MobileNumber
  import opened JsValues

  datatype Field = Name | Mobile | Email | Address | Password

  datatype SignupFields = SignupFields(name: string, mobile: string, email: string, address: string, password: string)

  const EmptyFields := SignupFields("", "", "", "", "")

  /** The form with one field replaced, as `{ ...form, [name]: value }` builds it. */
  function With(f: SignupFields, field: Field, value: string): (r: SignupFields)
    ensures field == Name ==> r == f.(name := value)
    ensures field == Mobile ==> r == f.(mobile := value)
    ensures field == Email ==> r == f.(email := value)
    ensures field == Address ==> r == f.(address := value)
    ensures field == Password ==> r == f.(password := value)
  {
    match field
    case Name => f.(name := value)
    case Mobile => f.(mobile := value)
    case Email => f.(email := value)
    case Address => f.(address := value)
    case Password => f.(password := value)
  }

  /** `!s.trim()`: the field holds nothing but white space. */
  predicate Blank(s: string) {
    Text.Trim(s) == []
  }

  /** The checks of `validateForm`, in the order it makes them. */
  datatype Check = NameRequired | MobileRequired | MobileLength | EmailRequired | AddressRequired | PasswordRequired

  /** The message a failed check reports. */
  function Message(c: Check): string {
    match c
    case NameRequired => "Name is required"
    case MobileRequired => "Mobile number is required"
    case MobileLength => "Mobile number must be 10 digits"
    case EmailRequired => "Email is required"
    case AddressRequired => "Address is required"
    case PasswordRequired => "Password is required"
  }

  /** The first check the form fails, or `None` when it passes. */
  function FirstError(f: SignupFields): Option<Check> {
    if Blank(f.name) then Some(NameRequired)
    else if Blank(f.mobile) then Some(MobileRequired)
    else if |f.mobile| != 10 then Some(MobileLength)
    else if Blank(f.email) then Some(EmailRequired)
    else if Blank(f.address) then Some(AddressRequired)
    else if Blank(f.password) then Some(PasswordRequired)
    else None
  }

  lemma BlankIff(s: string)
    ensures Blank(s) <==> !Text.Filled(s)
  {
    Text.TrimEmpty(s);
  }

  /**
   * The form passes exactly when each of the five fields holds a character other than white
   * space and the mobile number is ten characters long; the password has no length rule and
   * the email no format rule.
   */
  lemma ValidIff(f: SignupFields)
    ensures FirstError(f).None? <==>
      Text.Filled(f.name) && Text.Filled(f.mobile) && |f.mobile| == 10 && Text.Filled(f.email) && Text.Filled(f.address) && Text.Filled(f.password)
  {
    BlankIff(f.name);
    BlankIff(f.mobile);
    BlankIff(f.email);
    BlankIff(f.address);
    BlankIff(f.password);
  }

  /**
   * The checks run in the order name, mobile present, mobile length, email, address,
   * password, and the first one that fails names the message; a field of white space only
   * counts as missing.
   */
  lemma ErrorOrder(f: SignupFields)
    ensures FirstError(f) == Some(NameRequired) <==> !Text.Filled(f.name)
    ensures FirstError(f) == Some(MobileRequired) <==> Text.Filled(f.name) && !Text.Filled(f.mobile)
    ensures FirstError(f) == Some(MobileLength) <==>
      Text.Filled(f.name) && Text.Filled(f.mobile) && |f.mobile| != 10
    ensures FirstError(f) == Some(EmailRequired) <==>
      Text.Filled(f.name) && Text.Filled(f.mobile) && |f.mobile| == 10 && !Text.Filled(f.email)
    ensures FirstError(f) == Some(AddressRequired) <==>
      Text.Filled(f.name) && Text.Filled(f.mobile) && |f.mobile| == 10 && Text.Filled(f.email) && !Text.Filled(f.address)
    ensures FirstError(f) == Some(PasswordRequired) <==>
      Text.Filled(f.name) && Text.Filled(f.mobile) && |f.mobile| == 10 && Text.Filled(f.email) && Text.Filled(f.address) && !Text.Filled(f.password)
  {
    ValidIff(f);
  }

  /** For a mobile number of digits only, as the input stores it, the mobile checks reduce to its length. */
  lemma DigitMobileValid(f: SignupFields)
    requires forall i :: 0 <= i < |f.mobile| ==> Text.IsDigit(f.mobile[i])
    ensures FirstError(f).None? <==>
      Text.Filled(f.name) && |f.mobile| == 10 && Text.Filled(f.email) && Text.Filled(f.address) && Text.Filled(f.password)
  {
    ValidIff(f);
    DigitsFilled(f.mobile);
  }

  lemma DigitsFilled(s: string)
    requires forall i :: 0 <= i < |s| ==> Text.IsDigit(s[i])
    ensures Text.Filled(s) <==> s != []
  {
    if s != [] {
      assert !Text.IsWhiteSpace(s[0]);
    }
  }

  /** The state of the sign-up screen. */
  class SignupForm {
    var form: SignupFields
    var error: string
    var loading: bool

    /** The stored mobile number is digits only and at most ten of them. */
    predicate Valid()
      reads this
    {
      |form.mobile| <= 10 && forall i :: 0 <= i < |form.mobile| ==> Text.IsDigit(form.mobile[i])
    }

    constructor()
      ensures form == EmptyFields && error == "" && !loading
      ensures Valid()
    {
      form := EmptyFields;
      error := "";
      loading := false;
    }

    /** An input's change event: the mobile value is sanitised, every other value kept verbatim. */
    method HandleChange(field: Field, value: string)
      requires Valid()
      modifies this
      ensures form == With(old(form), field, if field == Mobile then MobileNumber.Sanitise(value) else value)
      ensures error == old(error) && loading == old(loading)
      ensures Valid()
    {
      if field == Mobile {
        var numbersOnly := MobileNumber.Sanitise(value);
        form := With(form, field, numbersOnly);
      } else {
        form := With(form, field, value);
      }
    }

    /** `validateForm`: each failed check sets its message and stops. */
    method ValidateForm() returns (ok: bool)
      modifies this
      ensures ok <==> FirstError(form).None?
      ensures error == if ok then old(error) else Message(FirstError(form).value)
      ensures form == old(form) && loading == old(loading)
      ensures Valid() ==> (ok <==>
        Text.Filled(form.name) && |form.mobile| == 10 && Text.Filled(form.email)
        && Text.Filled(form.address) && Text.Filled(form.password))
    {
      if Valid() {
        DigitMobileValid(form);
      }
      if Blank(form.name) {
        error := Message(NameRequired);
        return false;
      }
      if Blank(form.mobile) {
        error := Message(MobileRequired);
        return false;
      }
      if |form.mobile| != 10 {
        error := Message(MobileLength);
        return false;
      }
      if Blank(form.email) {
        error := Message(EmailRequired);
        return false;
      }
      if Blank(form.address) {
        error := Message(AddressRequired);
        return false;
      }
      if Blank(form.password) {
        error := Message(PasswordRequired);
        return false;
      }
      return true;
    }

    /**
     * The submit handler up to the request: the error is cleared, the form checked and, when
     * it passes, loading is set and the form is the request body.
     */
    method HandleSignUp() returns (request: Option<SignupFields>)
      modifies this
      ensures form == old(form)
      ensures error == match FirstError(form) case Some(c) => Message(c) case None => ""
      ensures loading == (old(loading) || FirstError(form).None?)
      ensures request == if FirstError(form).None? then Some(form) else None
    {
      error := "";
      var ok := ValidateForm();
      if ok {
        loading := true;
        request := Some(form);
      } else {
        request := None;
      }
    }

    /**
     * The server's answer: `reply` is the parsed body, or the message of whatever `fetch`
     * or `response.json()` threw. A truthy `success` ends loading and navigates to the
     * sign-in page; otherwise the server's message, or "Signup failed", becomes the error;
     * an exception, reading `success` of `null` included, gives the server-error message.
     */
    method FinishSignUp(reply: Result<JsValue>) returns (toSignin: bool)
      modifies this
      ensures !loading && form == old(form)
      ensures toSignin <==> reply.Success? && Prop(reply.value, "success").Success? && Truthy(Get(reply.value, "success"))
      ensures toSignin ==> error == old(error)
      ensures (reply.Failure? || Prop(reply.value, "success").Failure?) ==> error == "Server error. Please try again."
      ensures reply.Success? && Prop(reply.value, "success").Success? && !Truthy(Get(reply.value, "success")) ==>
        error == ToString(Or(Get(reply.value, "message"), Str("Signup failed")))
    {
      toSignin := false;
      if reply.Failure? {
        loading := false;
        error := "Server error. Please try again.";
        return;
      }
      var success := Prop(reply.value, "success");
      if success.Failure? {
        loading := false;
        error := "Server error. Please try again.";
      } else if Truthy(success.value) {
        loading := false;
        toSignin := true;
      } else {
        loading := false;
        error := ToString(Or(Get(reply.value, "message"), Str("Signup failed")));
      }
    }
  }
}
