/**
 * The mobile-number input of the sign-up and sign-in forms (src/Auth/Signup.jsx and
 * src/Auth/Signin.jsx): whatever is typed is stripped to its digits and cut to ten of them.
 */
module MobileNumber {
  import Text
  import Seqs

  /** `value.replace(/\D/g, "").slice(0, 10)`. */
  function Sanitise(value: string): (r: string)
    ensures |r| <= 10
    ensures forall i :: 0 <= i < |r| ==> Text.IsDigit(r[i])
  {
    var digits := Text.DigitsOnly(value);
    if |digits| <= 10 then digits else digits[..10]
  }

  /**
   * The stored number is the first ten digits typed (all of them when there are fewer), in
   * the order they were typed.
   */
  lemma SanitiseKeepsFirstDigits(value: string)
    ensures Sanitise(value) == Text.DigitsOnly(value)[..|Sanitise(value)|]
    ensures |Sanitise(value)| == if |Text.DigitsOnly(value)| <= 10 then |Text.DigitsOnly(value)| else 10
    ensures Seqs.Subsequence(Sanitise(value), value)
  {
    var digits := Text.DigitsOnly(value);
    Text.DigitsOnlyKeepsDigits(value);
    Seqs.SubsequencePrefix(digits, value, |Sanitise(value)|);
    assert digits[..|digits|] == digits;
  }

  /** Sanitising a stored number again leaves it as it is. */
  lemma SanitiseIdempotent(value: string)
    ensures Sanitise(Sanitise(value)) == Sanitise(value)
  {
    Text.DigitsOnlyOfDigits(Sanitise(value));
  }
}
