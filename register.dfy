/** The registration page (src/pages/Register.js): the password policy and the
    guarded steps of `handleRegister`. */
module Register {
  import opened Common
  import opened Records

  /** `[a-z]`, `[A-Z]` and `[0-9]`. */
  predicate IsLower(c: char) { 'a' <= c <= 'z' }
  predicate IsUpper(c: char) { 'A' <= c <= 'Z' }
  predicate IsDigit(c: char) { '0' <= c <= '9' }

  /** `[^A-Za-z0-9]`: anything else, a space included. */
  predicate IsSymbol(c: char) { !IsLower(c) && !IsUpper(c) && !IsDigit(c) }

  /** `/[class]/.test(s)`: some character of `s` is in the class. */
  function AnyChar(s: string, inClass: char -> bool): (r: bool)
    ensures r <==> exists i :: 0 <= i < |s| && inClass(s[i])
    decreases |s|
  {
    if s == [] then false
    else if inClass(s[0]) then true
    else
      var rest := AnyChar(s[1..], inClass);
      assert forall i :: 1 <= i < |s| ==> s[i] == s[1..][i - 1];
      rest
  }

  /** The five criteria shown under the password field. */
  datatype PasswordValidity = PasswordValidity(
    length: bool, lowercase: bool, uppercase: bool, number: bool, symbol: bool)

  /** `validatePassword`: each criterion holds exactly when the password has the
      required length or a character of the required class. */
  function ValidatePassword(password: string): (v: PasswordValidity)
    ensures v.length <==> |password| >= 8
    ensures v.lowercase <==> exists i :: 0 <= i < |password| && IsLower(password[i])
    ensures v.uppercase <==> exists i :: 0 <= i < |password| && IsUpper(password[i])
    ensures v.number <==> exists i :: 0 <= i < |password| && IsDigit(password[i])
    ensures v.symbol <==> exists i :: 0 <= i < |password| && IsSymbol(password[i])
  {
    PasswordValidity(
      |password| >= 8,
      AnyChar(password, IsLower),
      AnyChar(password, IsUpper),
      AnyChar(password, IsDigit),
      AnyChar(password, IsSymbol))
  }

  /** `isPasswordValid`: all five criteria hold. */
  function IsPasswordValid(v: PasswordValidity): bool {
    v.length && v.lowercase && v.uppercase && v.number && v.symbol
  }

  /** A password passes exactly when it has eight characters, a lower-case letter,
      an upper-case letter, a digit and a character outside those three classes. */
  lemma PasswordPolicy(password: string)
    ensures IsPasswordValid(ValidatePassword(password)) <==>
            |password| >= 8 &&
            (exists i :: 0 <= i < |password| && IsLower(password[i])) &&
            (exists i :: 0 <= i < |password| && IsUpper(password[i])) &&
            (exists i :: 0 <= i < |password| && IsDigit(password[i])) &&
            (exists i :: 0 <= i < |password| && IsSymbol(password[i]))
  {
  }

  /** A space satisfies the symbol criterion. */
  lemma SpaceIsSymbol(password: string)
    requires ' ' in password
    ensures ValidatePassword(password).symbol
  {
    var i :| 0 <= i < |password| && password[i] == ' ';
    assert IsSymbol(password[i]);
  }

  const AllFieldsRequired := "All fields are required"
  const PasswordsDoNotMatch := "Passwords do not match"
  const RequirementsNotMet := "Password does not meet all requirements"

  /** The client-side checks of `handleRegister`, in the order they fire: the first
      one that fails gives its message, and none means the form may be sent. */
  function FormError(email: string, password: string, confirmPassword: string): (e: Option<string>)
    ensures (email == "" || password == "" || confirmPassword == "") ==> e == Some(AllFieldsRequired)
    ensures email != "" && password != "" && confirmPassword != "" && password != confirmPassword
            ==> e == Some(PasswordsDoNotMatch)
    ensures email != "" && password != "" && password == confirmPassword &&
            !IsPasswordValid(ValidatePassword(password))
            ==> e == Some(RequirementsNotMet)
    ensures e == None <==>
            email != "" && password != "" && password == confirmPassword &&
            IsPasswordValid(ValidatePassword(password))
  {
    if email == "" || password == "" || confirmPassword == "" then Some(AllFieldsRequired)
    else if password != confirmPassword then Some(PasswordsDoNotMatch)
    else if !IsPasswordValid(ValidatePassword(password)) then Some(RequirementsNotMet)
    else None
  }

  /** The registration form's state and what its handlers have done outside it. */
  class RegisterForm {
    var email: string
    var password: string
    var confirmPassword: string
    var error: string
    var loading: bool
    var passwordValidity: PasswordValidity
    var effects: seq<Effect>

    /** Empty fields, no error, not loading; the criteria have not been computed yet
        (`{}`), so every one of them reads as unmet. */
    constructor ()
      ensures email == "" && password == "" && confirmPassword == ""
      ensures error == "" && !loading && effects == []
      ensures passwordValidity == PasswordValidity(false, false, false, false, false)
    {
      email, password, confirmPassword := "", "", "";
      error, loading := "", false;
      passwordValidity := PasswordValidity(false, false, false, false, false);
      effects := [];
    }

    /** Typing in the password field stores it and recomputes the criteria. */
    method SetPassword(pwd: string)
      modifies this
      ensures password == pwd && passwordValidity == ValidatePassword(pwd)
      ensures email == old(email) && confirmPassword == old(confirmPassword)
      ensures error == old(error) && loading == old(loading) && effects == old(effects)
    {
      password := pwd;
      passwordValidity := ValidatePassword(pwd);
    }

    /** `handleRegister`, with the outcomes of `signUp` and of the profile insert as
        inputs; a call the handler does not reach leaves its outcome unused. */
    method HandleRegister(signUp: Remote<User>, profileInsert: Remote<()>)
      modifies this
      ensures email == old(email) && password == old(password)
      ensures confirmPassword == old(confirmPassword) && passwordValidity == old(passwordValidity)
      ensures var check := FormError(email, password, confirmPassword);
        if check.Some? then
          error == check.value && loading == old(loading) && effects == old(effects)
        else if signUp.Err? then
          error == signUp.message && !loading &&
          effects == old(effects) + [Send(SignUp(email, password))]
        else if profileInsert.Err? then
          error == profileInsert.message && !loading &&
          effects == old(effects) + [Send(SignUp(email, password)),
                                     Send(InsertProfile(User(signUp.data.id, signUp.data.email)))]
        else
          error == "" && !loading &&
          effects == old(effects) + [Send(SignUp(email, password)),
                                     Send(InsertProfile(User(signUp.data.id, signUp.data.email))),
                                     Navigate("/login")]
    {
      error := "";
      var check := FormError(email, password, confirmPassword);
      if check.Some? {
        error := check.value;
        return;
      }
      loading := true;
      var signUpSent := Send(SignUp(email, password));
      if signUp.Err? {
        error := signUp.message;
        loading := false;
        effects := effects + [signUpSent];
        return;
      }
      var user := signUp.data;
      var profileSent := Send(InsertProfile(User(user.id, user.email)));
      loading := false;
      if profileInsert.Err? {
        error := profileInsert.message;
        effects := effects + [signUpSent, profileSent];
      } else {
        effects := effects + [signUpSent, profileSent, Navigate("/login")];
      }
    }
  }
}
