/** The sign-up form: the password-strength score and the ordered checks before the account is created. */
module RegisterPage {
  import opened Wrappers
  import opened Text

  predicate HasMinLength(password: string)
  {
    Utf16Length(password) >= 8
  }

  predicate HasUppercase(password: string)
  {
    exists i :: 0 <= i < |password| && 'A' <= password[i] <= 'Z'
  }

  predicate HasNumber(password: string)
  {
    exists i :: 0 <= i < |password| && '0' <= password[i] <= '9'
  }

  function Count(b: bool): nat
  {
    if b then 1 else 0
  }

  /** The number of strength criteria the password meets. */
  function StrengthScore(password: string): (r: nat)
    ensures r <= 3
    ensures r == 0 <==> !HasMinLength(password) && !HasUppercase(password) && !HasNumber(password)
    ensures r == 3 <==> HasMinLength(password) && HasUppercase(password) && HasNumber(password)
  {
    Count(HasMinLength(password)) + Count(HasUppercase(password)) + Count(HasNumber(password))
  }

  /** A score of at least two means at least two of the three criteria hold. */
  lemma StrongEnoughIffTwoCriteria(password: string)
    ensures StrengthScore(password) >= 2 <==>
              || (HasMinLength(password) && HasUppercase(password))
              || (HasMinLength(password) && HasNumber(password))
              || (HasUppercase(password) && HasNumber(password))
  {
  }

  /** A character outside the Basic Multilingual Plane counts as two towards the minimum length, as it
      does in `password.length`: four such characters and "Ab" meet the length and uppercase criteria. */
  lemma AstralCharactersCountTwice()
    ensures HasMinLength("\U{1F600}\U{1F600}\U{1F600}\U{1F600}Ab")
    ensures StrengthScore("\U{1F600}\U{1F600}\U{1F600}\U{1F600}Ab") == 2
  {
    var p := "\U{1F600}\U{1F600}\U{1F600}\U{1F600}Ab";
    assert |p| == 6 && p[4] == 'A';
    assert forall i :: 0 <= i < |p| ==> !('0' <= p[i] <= '9');
  }

  datatype SignUpForm = SignUpForm(name: string, email: string, password: string, confirmPassword: string, acceptTerms: bool)

  const MissingFields := "Preencha todos os campos"
  const PasswordMismatch := "As senhas não coincidem"
  const WeakPassword := "A senha precisa ser mais forte"
  const TermsNotAccepted := "Aceite os termos para continuar"
  const SignUpFailed := "Erro ao criar conta"

  predicate AllFilled(f: SignUpForm)
  {
    f.name != [] && f.email != [] && f.password != [] && f.confirmPassword != []
  }

  /** The message of the first failing check, in the order the form runs them; None when all pass. */
  function ValidationError(f: SignUpForm): (r: Option<string>)
    ensures r == Some(MissingFields) <==> !AllFilled(f)
    ensures r == Some(PasswordMismatch) <==> AllFilled(f) && f.password != f.confirmPassword
    ensures r == Some(WeakPassword) <==>
              AllFilled(f) && f.password == f.confirmPassword && StrengthScore(f.password) < 2
    ensures r == Some(TermsNotAccepted) <==>
              AllFilled(f) && f.password == f.confirmPassword && StrengthScore(f.password) >= 2 && !f.acceptTerms
    ensures r.None? <==>
              AllFilled(f) && f.password == f.confirmPassword && StrengthScore(f.password) >= 2 && f.acceptTerms
  {
    if !AllFilled(f) then Some(MissingFields)
    else if f.password != f.confirmPassword then Some(PasswordMismatch)
    else if StrengthScore(f.password) < 2 then Some(WeakPassword)
    else if !f.acceptTerms then Some(TermsNotAccepted)
    else None
  }

  /** What the account service answers: an error with a possibly empty message, or the created data. */
  datatype SignUpReply = SignUpError(message: string) | SignUpData(hasUser: bool, hasSession: bool)

  datatype Route = VerifyEmailRoute | HomeRoute

  /** The message shown for a failed sign-up: the service's, unless it is empty. */
  function FailureText(message: string): (r: string)
    ensures message != [] ==> r == message
    ensures message == [] ==> r == SignUpFailed
    ensures r != []
  {
    if message != [] then message else SignUpFailed
  }

  /** Where a successful sign-up leads: a created user without a session must confirm the email first. */
  function RouteAfter(hasUser: bool, hasSession: bool): (r: Route)
    ensures r == VerifyEmailRoute <==> hasUser && !hasSession
  {
    if hasUser && !hasSession then VerifyEmailRoute else HomeRoute
  }

  class RegisterForm {
    var form: SignUpForm
    var errorMessage: string
    var isLoading: bool
    var navigation: Option<Route>

    constructor ()
      ensures form == SignUpForm("", "", "", "", false)
      ensures errorMessage == "" && !isLoading && navigation.None?
    {
      form := SignUpForm("", "", "", "", false);
      errorMessage := "";
      isLoading := false;
      navigation := None;
    }

    /** Submits the form. `reply` stands for what the account service would answer; `signUpCalled`
        says whether the service is asked at all. */
    method Submit(reply: SignUpReply) returns (signUpCalled: bool)
      modifies this
      ensures form == old(form)
      ensures signUpCalled <==> ValidationError(form).None?
      ensures !signUpCalled ==>
                && errorMessage == ValidationError(form).value
                && !isLoading && navigation == old(navigation)
      ensures signUpCalled && reply.SignUpError? ==>
                && errorMessage == FailureText(reply.message)
                && !isLoading && navigation == old(navigation)
      ensures signUpCalled && reply.SignUpData? ==>
                && errorMessage == "" && isLoading
                && navigation == Some(RouteAfter(reply.hasUser, reply.hasSession))
    {
      errorMessage := "";
      isLoading := true;
      signUpCalled := false;
      if !AllFilled(form) {
        errorMessage := MissingFields;
        isLoading := false;
        return;
      }
      if form.password != form.confirmPassword {
        errorMessage := PasswordMismatch;
        isLoading := false;
        return;
      }
      if StrengthScore(form.password) < 2 {
        errorMessage := WeakPassword;
        isLoading := false;
        return;
      }
      if !form.acceptTerms {
        errorMessage := TermsNotAccepted;
        isLoading := false;
        return;
      }
      signUpCalled := true;
      match reply {
        case SignUpError(message) =>
          errorMessage := FailureText(message);
          isLoading := false;
        case SignUpData(hasUser, hasSession) =>
          navigation := Some(RouteAfter(hasUser, hasSession));
      }
    }
  }
}
