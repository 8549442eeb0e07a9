/**
 * The landing page: login and registration checks on the username and password. Browser storage is
 * abstracted as the set of keys it holds.
 */
module LandingPage {
  import opened Options
  import opened Text

  /** The username as every check sees it: lower-cased, then trimmed. */
  function Clean(u: string): string {
    Trim(Lower(u))
  }

  /** Cleaning a clean name changes nothing. */
  lemma CleanIdempotent(u: string)
    ensures Clean(Clean(u)) == Clean(u)
  {
    var l := Lower(u);
    LowerTrimStart(l);
    LowerTrimEnd(TrimStart(l));
    LowerIdempotent(u);
    TrimIdempotent(l);
  }

  /** The storage key under which a user's data lives. */
  function StorageKey(user: string): string {
    "fintrack_data_" + Clean(user)
  }

  /** `checkUserExists`: the storage holds the user's key. */
  predicate UserExists(storage: set<string>, user: string) {
    StorageKey(user) in storage
  }

  /** Two names that clean to the same text name the same user. */
  lemma SameUser(storage: set<string>, u: string, v: string)
    requires Clean(u) == Clean(v)
    ensures UserExists(storage, u) <==> UserExists(storage, v)
  {
  }

  const EmptyUsername := "Por favor, introduza um nome de utilizador."
  const UsernameTaken := "Este nome de utilizador já está em uso."
  const PasswordTooShort := "A palavra-passe deve ter pelo menos 4 caracteres."
  const PasswordMismatch := "As palavras-passe não coincidem."
  const UnknownUser := "Utilizador não encontrado. Por favor, crie uma conta primeiro."

  /** The end of a submit: an error message, or `onLogin` called with a username and a password. */
  datatype Outcome = Rejected(message: string) | LoggedIn(username: string, password: string)

  /**
   * `handleSubmit`: the cleaned username must not be empty; a registration is refused for a taken name,
   * then for a password shorter than 4, then for a confirmation that differs; a login is refused for an
   * unknown user. Otherwise `onLogin` receives the cleaned username and the password as typed.
   */
  function Evaluate(username: string, password: string, confirm: string, registering: bool, storage: set<string>): (o: Outcome)
    ensures o.LoggedIn? <==>
      Clean(username) != "" &&
      (if registering then !UserExists(storage, username) && |password| >= 4 && password == confirm
       else UserExists(storage, username))
    ensures o.LoggedIn? ==> o.username == Clean(username) && o.password == password
    ensures Clean(username) == "" ==> o == Rejected(EmptyUsername)
  {
    var clean := Clean(username);
    CleanIdempotent(username);
    if clean == "" then Rejected(EmptyUsername)
    else if registering then
      if UserExists(storage, clean) then Rejected(UsernameTaken)
      else if |password| < 4 then Rejected(PasswordTooShort)
      else if password != confirm then Rejected(PasswordMismatch)
      else LoggedIn(clean, password)
    else if !UserExists(storage, clean) then Rejected(UnknownUser)
    else LoggedIn(clean, password)
  }

  /**
   * The registration checks run in order: a taken name is reported whatever the passwords, a short
   * password whatever the confirmation, and a mismatch only after both pass.
   */
  lemma RegistrationOrder(username: string, password: string, confirm: string, storage: set<string>)
    requires Clean(username) != ""
    ensures UserExists(storage, username) ==> Evaluate(username, password, confirm, true, storage) == Rejected(UsernameTaken)
    ensures !UserExists(storage, username) && |password| < 4 ==>
      Evaluate(username, password, confirm, true, storage) == Rejected(PasswordTooShort)
    ensures !UserExists(storage, username) && |password| >= 4 && password != confirm ==>
      Evaluate(username, password, confirm, true, storage) == Rejected(PasswordMismatch)
  {
    CleanIdempotent(username);
  }

  /** A login with a non-empty name is refused exactly when the user is unknown, and then with that message. */
  lemma LoginUnknown(username: string, password: string, confirm: string, storage: set<string>)
    requires Clean(username) != ""
    ensures Evaluate(username, password, confirm, false, storage).Rejected? <==> !UserExists(storage, username)
    ensures !UserExists(storage, username) ==> Evaluate(username, password, confirm, false, storage) == Rejected(UnknownUser)
  {
    CleanIdempotent(username);
  }

  /**
   * Once the storage holds a user's key, registering that name again (in any letter case, with any
   * surrounding white space) is refused, and logging in with it succeeds whatever the password.
   */
  lemma KnownUser(u: string, v: string, password: string, confirm: string, storage: set<string>)
    requires Clean(u) != "" && Clean(v) == Clean(u)
    requires StorageKey(u) in storage
    ensures Evaluate(v, password, confirm, true, storage) == Rejected(UsernameTaken)
    ensures Evaluate(v, password, confirm, false, storage) == LoggedIn(Clean(u), password)
  {
    CleanIdempotent(v);
  }

  /** The page's state. */
  class Landing {
    var username: string
    var password: string
    var confirmPassword: string
    var isRegistering: bool
    var error: Option<string>

    constructor()
      ensures username == "" && password == "" && confirmPassword == "" && !isRegistering && error.None?
    {
      username, password, confirmPassword := "", "", "";
      isRegistering := false;
      error := None;
    }

    method SetUsername(text: string)
      modifies this`username
      ensures username == text
    {
      username := text;
    }

    method SetPassword(text: string)
      modifies this`password
      ensures password == text
    {
      password := text;
    }

    method SetConfirmPassword(text: string)
      modifies this`confirmPassword
      ensures confirmPassword == text
    {
      confirmPassword := text;
    }

    /**
     * The submit: the error is cleared, then set to the first failing check's message; when every check
     * passes the credentials are handed to `onLogin` and the error stays clear.
     */
    method Submit(storage: set<string>) returns (login: Option<(string, string)>)
      modifies this`error
      ensures var o := Evaluate(username, password, confirmPassword, isRegistering, storage);
        (o.Rejected? ==> error == Some(o.message) && login.None?)
        && (o.LoggedIn? ==> error.None? && login == Some((o.username, o.password)))
    {
      error := None;
      var o := Evaluate(username, password, confirmPassword, isRegistering, storage);
      if o.Rejected? {
        error := Some(o.message);
        login := None;
      } else {
        login := Some((o.username, o.password));
      }
    }

    /** "Criar agora": switch to registration, clearing the error and the password. */
    method SwitchToRegister()
      modifies this`isRegistering, this`error, this`password
      ensures isRegistering && error.None? && password == ""
    {
      isRegistering := true;
      error := None;
      password := "";
    }

    /** Back to login: the error is cleared, the typed password is kept. */
    method SwitchToLogin()
      modifies this`isRegistering, this`error
      ensures !isRegistering && error.None?
    {
      isRegistering := false;
      error := None;
    }
  }
}
