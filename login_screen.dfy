/** The login screen: pick a user, type a four-digit PIN on the pad, and
    sign in. The PIN check itself belongs to the store's `login`; here its
    answer is a parameter. */
module LoginScreen {
  import opened Types

  datatype LoginError = NoError | NeedFourDigits | WrongPin

  predicate IsDigit(c: char) {
    '0' <= c <= '9'
  }

  class LoginPad {
    var selectedUser: Option<User>
    var pin: string
    var error: LoginError

    /** The pad only ever holds up to four digits. */
    predicate Valid()
      reads this
    {
      |pin| <= 4 && forall i :: 0 <= i < |pin| ==> IsDigit(pin[i])
    }

    constructor ()
      ensures Valid()
      ensures selectedUser == None && pin == "" && error == NoError
    {
      selectedUser := None;
      pin := "";
      error := NoError;
    }

    /** Clicking a user's card. */
    method SelectUser(u: User)
      requires Valid()
      modifies this
      ensures Valid()
      ensures selectedUser == Some(u) && pin == old(pin) && error == old(error)
    {
      selectedUser := Some(u);
    }

    /** handlePinInput: a digit is appended only while fewer than four are
        entered. */
    method PressDigit(d: char)
      requires Valid() && IsDigit(d)
      modifies this
      ensures Valid()
      ensures pin == if |old(pin)| < 4 then old(pin) + [d] else old(pin)
      ensures selectedUser == old(selectedUser) && error == old(error)
    {
      if |pin| < 4 {
        pin := pin + [d];
      }
    }

    /** handleBackspace: `pin.slice(0, -1)`, which leaves an empty PIN empty. */
    method Backspace()
      requires Valid()
      modifies this
      ensures Valid()
      ensures pin == if |old(pin)| == 0 then "" else old(pin)[..|old(pin)| - 1]
      ensures selectedUser == old(selectedUser) && error == old(error)
    {
      if |pin| > 0 {
        pin := pin[..|pin| - 1];
      }
    }

    /** handleLogin. Without a selected user or with fewer than four digits
        `login` is not called (`attempt` is `None`) and the pad asks for four
        digits. Otherwise `login` is called with the user's id and the PIN,
        `accepted` is its answer, and a refusal clears the PIN. */
    method PressLogin(accepted: bool) returns (attempt: Option<(int, string)>)
      requires Valid()
      modifies this
      ensures Valid()
      ensures attempt.None? <==> old(selectedUser).None? || |old(pin)| != 4
      ensures attempt.None? ==> error == NeedFourDigits && pin == old(pin)
      ensures attempt.Some? ==>
        && attempt.value == (old(selectedUser).value.id, old(pin))
        && error == (if accepted then NoError else WrongPin)
        && pin == (if accepted then old(pin) else "")
      ensures selectedUser == old(selectedUser)
    {
      if selectedUser.None? || |pin| != 4 {
        error := NeedFourDigits;
        return None;
      }
      error := NoError;
      attempt := Some((selectedUser.value.id, pin));
      if !accepted {
        error := WrongPin;
        pin := "";
      }
    }

    /** The back arrow: back to the user list with the PIN and the error
        cleared. */
    method Back()
      modifies this
      ensures Valid()
      ensures selectedUser == None && pin == "" && error == NoError
    {
      selectedUser := None;
      pin := "";
      error := NoError;
    }
  }

  /** Typing four digits on a fresh pick always reaches a login attempt
      with exactly those digits; a fifth is ignored. */
  method FourDigitsReachLogin(u: User, a: char, b: char, c: char, d: char, e: char)
    returns (attempt: Option<(int, string)>)
    requires IsDigit(a) && IsDigit(b) && IsDigit(c) && IsDigit(d) && IsDigit(e)
    ensures attempt == Some((u.id, [a, b, c, d]))
  {
    var pad := new LoginPad();
    pad.SelectUser(u);
    pad.PressDigit(a);
    pad.PressDigit(b);
    pad.PressDigit(c);
    pad.PressDigit(d);
    assert pad.pin == [a, b, c, d];
    pad.PressDigit(e);
    attempt := pad.PressLogin(false);
  }
}
