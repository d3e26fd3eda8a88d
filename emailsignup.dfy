/** The email step of sign-up, src/screens/auth/EmailSignupScreen.tsx. */
module EmailSignup {

  class EmailSignupScreen {
    var email: string
    var termsAccepted: bool

    constructor ()
      ensures email == "" && !termsAccepted
      ensures !ContinueEnabled()
    {
      email := "";
      termsAccepted := false;
    }

    /** Continue is enabled once an email is typed and the terms are accepted. */
    predicate ContinueEnabled()
      reads this
    {
      email != "" && termsAccepted
    }

    method SetEmail(text: string)
      modifies this`email
      ensures email == text
    {
      email := text;
    }

    /** The checkbox press flips the terms flag; two presses restore it. */
    method ToggleTerms()
      modifies this`termsAccepted
      ensures termsAccepted == !old(termsAccepted)
    {
      termsAccepted := !termsAccepted;
    }

    /** Pressing Continue moves on to the personal-info step only when enabled. */
    method PressContinue() returns (proceeds: bool)
      ensures proceeds <==> email != "" && termsAccepted
    {
      proceeds := ContinueEnabled();
    }
  }
}
