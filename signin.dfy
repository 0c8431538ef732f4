/**
 * The sign-in form (src/Auth/Signin.jsx): a mobile number and a password, an error line and
 * a loading flag that a timer clears after a successful check.
 */
module Signin {
  import opened Wrappers
  import Text
  import MobileNumber

  datatype Field = Mobile | Password

  datatype SigninFields = SigninFields(mobile: string, password: string)

  /** The checks of `validateForm`, in the order it makes them. */
  datatype Check = MobileRequired | MobileLength | PasswordRequired | PasswordLength

  /** The message a failed check reports. */
  function Message(c: Check): string {
    match c
    case MobileRequired => "Mobile number is required"
    case MobileLength => "Mobile number must be 10 digits"
    case PasswordRequired => "Password is required"
    case PasswordLength => "Password must be at least 6 characters long"
  }

  /**
   * The first check the form fails, or `None` when it passes. The mobile number is trimmed
   * before its presence check; the password is not trimmed at all.
   */
  function FirstError(f: SigninFields): Option<Check> {
    if Text.Trim(f.mobile) == [] then Some(MobileRequired)
    else if |f.mobile| != 10 then Some(MobileLength)
    else if f.password == "" then Some(PasswordRequired)
    else if |f.password| < 6 then Some(PasswordLength)
    else None
  }

  /** The form passes exactly when the mobile number has ten characters, not all white space, and the password at least six. */
  lemma ValidIff(f: SigninFields)
    ensures FirstError(f).None? <==> Text.Filled(f.mobile) && |f.mobile| == 10 && |f.password| >= 6
  {
    Text.TrimEmpty(f.mobile);
    if Text.Trim(f.mobile) == [] {
      assert !Text.Filled(f.mobile);
    } else {
      assert Text.Filled(f.mobile);
    }
  }

  /** For a mobile number of digits only, as the input stores it, the form passes exactly when it has ten digits and the password six characters. */
  lemma DigitMobileValid(f: SigninFields)
    requires forall i :: 0 <= i < |f.mobile| ==> Text.IsDigit(f.mobile[i])
    ensures FirstError(f).None? <==> |f.mobile| == 10 && |f.password| >= 6
  {
    ValidIff(f);
    if |f.mobile| > 0 {
      assert !Text.IsWhiteSpace(f.mobile[0]);
    }
  }

  /** Every password of one to five characters fails with the same message, whatever it holds. */
  lemma ShortPassword(f: SigninFields, other: string)
    requires 1 <= |f.password| <= 5 && 1 <= |other| <= 5
    ensures FirstError(f).Some? && FirstError(f) != Some(PasswordRequired)
    ensures FirstError(f) == FirstError(f.(password := other))
    ensures |f.mobile| == 10 && Text.Trim(f.mobile) != [] ==> FirstError(f) == Some(PasswordLength)
  {
  }

  /** A password is not trimmed: six spaces after a ten-digit number pass the checks. */
  lemma SpacesPassword(mobile: string)
    requires |mobile| == 10 && forall i :: 0 <= i < |mobile| ==> Text.IsDigit(mobile[i])
    ensures FirstError(SigninFields(mobile, "      ")).None?
  {
    DigitMobileValid(SigninFields(mobile, "      "));
  }

  /** The state of the sign-in screen. */
  class SigninForm {
    var form: SigninFields
    var error: string
    var loading: bool

    /** The stored mobile number is digits only and at most ten of them. */
    predicate Valid()
      reads this
    {
      |form.mobile| <= 10 && forall i :: 0 <= i < |form.mobile| ==> Text.IsDigit(form.mobile[i])
    }

    constructor()
      ensures form == SigninFields("", "") && error == "" && !loading
      ensures Valid()
    {
      form := SigninFields("", "");
      error := "";
      loading := false;
    }

    /** An input's change event: the mobile value is sanitised, the password kept verbatim. */
    method HandleChange(field: Field, value: string)
      requires Valid()
      modifies this
      ensures field == Mobile ==> form == old(form).(mobile := MobileNumber.Sanitise(value))
      ensures field == Password ==> form == old(form).(password := value)
      ensures error == old(error) && loading == old(loading)
      ensures Valid()
    {
      if field == Mobile {
        var numbersOnly := MobileNumber.Sanitise(value);
        form := form.(mobile := numbersOnly);
      } else {
        form := form.(password := value);
      }
    }

    /** `validateForm`: each failed check sets its message and stops. */
    method ValidateForm() returns (ok: bool)
      modifies this
      ensures ok <==> FirstError(form).None?
      ensures error == if ok then old(error) else Message(FirstError(form).value)
      ensures form == old(form) && loading == old(loading)
      ensures Valid() ==> (ok <==> |form.mobile| == 10 && |form.password| >= 6)
    {
      if Valid() {
        DigitMobileValid(form);
      }
      if Text.Trim(form.mobile) == [] {
        error := Message(MobileRequired);
        return false;
      }
      if |form.mobile| != 10 {
        error := Message(MobileLength);
        return false;
      }
      if form.password == "" {
        error := Message(PasswordRequired);
        return false;
      }
      if |form.password| < 6 {
        error := Message(PasswordLength);
        return false;
      }
      return true;
    }

    /** The submit handler: the error is cleared, the form checked, and loading set when it passes. */
    method HandleSignIn() returns (ok: bool)
      modifies this
      ensures form == old(form)
      ensures ok <==> FirstError(form).None?
      ensures error == match FirstError(form) case Some(c) => Message(c) case None => ""
      ensures loading == (old(loading) || ok)
    {
      error := "";
      ok := ValidateForm();
      if ok {
        loading := true;
      }
    }

    /** The timer the submit handler starts: when it fires, loading ends. */
    method TimerElapsed()
      modifies this
      ensures !loading && form == old(form) && error == old(error)
    {
      loading := false;
    }
  }
}
