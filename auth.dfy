/**
 * The sign-in page (src/pages/AuthPage.jsx): field validators that fill an error map,
 * a registry of signed-up users kept in memory, and the login lookup with the flags
 * it sets. The timers around sign-up and login are taken as one synchronous step.
 */
module AuthPage {
  import opened Wrappers
  import opened Strings
  import opened ErrorMaps

  datatype User = User(email: string, password: string, name: string)

  /** `formData`. */
  datatype AuthForm = AuthForm(
    name: string, email: string, password: string, confirmPassword: string,
    authenticatedUser: Option<User>)

  const EmptyForm: AuthForm := AuthForm("", "", "", "", None)

  const NameRequired: string := "Name is required"
  const EmailInvalid: string := "Email is invalid"
  const PasswordTooShort: string := "Password must be at least 6 characters"
  const PasswordsDiffer: string := "Passwords do not match"
  const PasswordRequired: string := "Password is required"
  const LoginFailed: string := "❌ Invalid email or password. Please sign up first."

  /**
   * `/\S+@\S+\.\S+/` matches with its `@` at `p` and its `.` at `q`: a non-space character
   * just before `p`, only non-space characters (at least one) strictly between, and a
   * non-space character just after `q`.
   */
  predicate EmailAt(s: string, p: int, q: int) {
    && 1 <= p && p + 1 < q && q + 1 < |s|
    && s[p] == '@' && s[q] == '.'
    && !IsWhite(s[p - 1]) && !IsWhite(s[q + 1])
    && forall t :: p < t < q ==> !IsWhite(s[t])
  }

  /** `/\S+@\S+\.\S+/.test(s)`: the pattern is not anchored, so a match anywhere counts. */
  ghost predicate EmailShaped(s: string) {
    exists p, q :: EmailAt(s, p, q)
  }

  /** An `@` at `p` that can open a match ending at `i`: a non-space before it, none after it up to `i`. */
  predicate OpenAt(s: string, p: int, i: int)
    requires i <= |s|
  {
    1 <= p < i && s[p] == '@' && !IsWhite(s[p - 1]) && forall t :: p < t < i ==> !IsWhite(s[t])
  }

  /** How the open `@` positions change when the scan takes one more character. */
  lemma OpenStep(s: string, p: int, i: nat)
    requires i < |s|
    ensures OpenAt(s, p, i + 1) <==>
      (OpenAt(s, p, i) && !IsWhite(s[i])) || (p == i && s[i] == '@' && i >= 1 && !IsWhite(s[i - 1]))
  {
  }

  /** A match is an open `@` followed by a `.` at least two places on, and a non-space after the `.`. */
  lemma EmailAtOpen(s: string, p: int, q: int)
    requires 0 <= q < |s|
    ensures EmailAt(s, p, q) <==> OpenAt(s, p, q) && p + 1 < q && s[q] == '.' && q + 1 < |s| && !IsWhite(s[q + 1])
  {
  }

  /** The regular expression test, as one left-to-right scan. */
  method MatchEmailPattern(s: string) returns (b: bool)
    ensures b <==> EmailShaped(s)
  {
    var at := -1;
    var i := 0;
    while i < |s|
      invariant 0 <= i <= |s|
      invariant at == -1 ==> forall p :: !OpenAt(s, p, i)
      invariant at >= 0 ==> OpenAt(s, at, i) && forall p :: p < at ==> !OpenAt(s, p, i)
      invariant forall p, q :: q < i ==> !EmailAt(s, p, q)
    {
      var c := s[i];
      forall p ensures !EmailAt(s, p, i) || (at >= 0 && at + 1 < i && c == '.' && i + 1 < |s| && !IsWhite(s[i + 1])) {
        EmailAtOpen(s, p, i);
      }
      if c == '.' && at >= 0 && at + 1 < i && i + 1 < |s| && !IsWhite(s[i + 1]) {
        EmailAtOpen(s, at, i);
        assert EmailAt(s, at, i);
        return true;
      }
      ghost var next := i + 1;
      if IsWhite(c) {
        at := -1;
        forall p ensures !OpenAt(s, p, next) { OpenStep(s, p, i); }
      } else if c == '@' && at == -1 && i >= 1 && !IsWhite(s[i - 1]) {
        forall p | p < i ensures !OpenAt(s, p, next) { OpenStep(s, p, i); }
        OpenStep(s, i, i);
        at := i;
      } else {
        forall p | p < i ensures OpenAt(s, p, next) <==> OpenAt(s, p, i) { OpenStep(s, p, i); }
      }
      i := i + 1;
    }
    return false;
  }

  /** The keys of the error object. */
  datatype AuthField = Name | Email | Password | ConfirmPassword

  /** `validateSignUp`'s error map: one entry per failing rule. */
  ghost function SignUpErrors(f: AuthForm): (errors: map<AuthField, string>)
    ensures Name in errors <==> AllWhite(f.name)
    ensures Email in errors <==> !EmailShaped(f.email)
    ensures Password in errors <==> |f.password| < 6
    ensures ConfirmPassword in errors <==> f.password != f.confirmPassword
  {
    var e1 := AddIf(map[], AllWhite(f.name), Name, NameRequired);
    var e2 := AddIf(e1, !EmailShaped(f.email), Email, EmailInvalid);
    var e3 := AddIf(e2, |f.password| < 6, Password, PasswordTooShort);
    AddIf(e3, f.password != f.confirmPassword, ConfirmPassword, PasswordsDiffer)
  }

  /** `validateLogin`'s error map. */
  ghost function LoginErrors(f: AuthForm): (errors: map<AuthField, string>)
    ensures Email in errors <==> !EmailShaped(f.email)
    ensures Password in errors <==> f.password == []
    ensures Name !in errors && ConfirmPassword !in errors
  {
    var e1 := AddIf(map[], !EmailShaped(f.email), Email, EmailInvalid);
    AddIf(e1, f.password == [], Password, PasswordRequired)
  }

  /** Sign-up validation passes exactly when all four rules hold. */
  lemma SignUpValidIff(f: AuthForm)
    ensures SignUpErrors(f) == map[] <==>
      !AllWhite(f.name) && EmailShaped(f.email) && |f.password| >= 6 && f.password == f.confirmPassword
  {
    var e := SignUpErrors(f);
    if e != map[] {
      var k :| k in e;
    }
  }

  /** Login validation passes exactly when the e-mail has the pattern's shape and a password is given. */
  lemma LoginValidIff(f: AuthForm)
    ensures LoginErrors(f) == map[] <==> EmailShaped(f.email) && f.password != []
  {
    var e := LoginErrors(f);
    if e != map[] {
      var k :| k in e;
    }
  }

  /** `registeredUsers.find(u => u.email === email && u.password === password)`. */
  function FindUser(users: seq<User>, email: string, password: string): (r: Option<User>)
    ensures r.Some? <==> exists k :: 0 <= k < |users| && users[k].email == email && users[k].password == password
    ensures r.Some? ==> r.value.email == email && r.value.password == password
    ensures r.Some? ==>
              exists k :: 0 <= k < |users| && users[k] == r.value &&
                forall j :: 0 <= j < k ==> !(users[j].email == email && users[j].password == password)
  {
    if users == [] then None
    else if users[0].email == email && users[0].password == password then Some(users[0])
    else
      var r := FindUser(users[1..], email, password);
      assert forall k :: 1 <= k < |users| ==> users[k] == users[1..][k - 1];
      if r.Some? then
        var k :| 0 <= k < |users[1..]| && users[1..][k] == r.value
          && forall j :: 0 <= j < k ==> !(users[1..][j].email == email && users[1..][j].password == password);
        assert users[k + 1] == r.value;
        r
      else r
  }

  /** After signing up with an e-mail and password, logging in with them finds a user. */
  lemma SignUpThenLogIn(users: seq<User>, email: string, password: string, name: string)
    ensures FindUser(users + [User(email, password, name)], email, password).Some?
  {
    var all := users + [User(email, password, name)];
    assert all[|users|] == User(email, password, name);
  }

  /** Appending users keeps every earlier login result: the first match wins. */
  lemma {:induction false} FindUserAppend(users: seq<User>, extra: User, email: string, password: string)
    requires FindUser(users, email, password).Some?
    ensures FindUser(users + [extra], email, password) == FindUser(users, email, password)
    decreases |users|
  {
    if !(users[0].email == email && users[0].password == password) {
      assert (users + [extra])[1..] == users[1..] + [extra];
      FindUserAppend(users[1..], extra, email, password);
    }
  }

  class Auth {
    var isLogin: bool
    var showRoleSelection: bool
    var form: AuthForm
    var errors: map<AuthField, string>
    var registeredUsers: seq<User>
    var loginError: string

    constructor ()
      ensures isLogin && !showRoleSelection && form == EmptyForm && errors == map[]
      ensures registeredUsers == [] && loginError == ""
    {
      isLogin := true;
      showRoleSelection := false;
      form := EmptyForm;
      errors := map[];
      registeredUsers := [];
      loginError := "";
    }

    /** `handleChange`: the named field takes the input's text. */
    method ChangeField(name: string, value: string)
      modifies this`form
      ensures name == "name" ==> form == old(form).(name := value)
      ensures name == "email" ==> form == old(form).(email := value)
      ensures name == "password" ==> form == old(form).(password := value)
      ensures name == "confirmPassword" ==> form == old(form).(confirmPassword := value)
      ensures name !in {"name", "email", "password", "confirmPassword"} ==> form == old(form)
    {
      match name
      case "name" => form := form.(name := value);
      case "email" => form := form.(email := value);
      case "password" => form := form.(password := value);
      case "confirmPassword" => form := form.(confirmPassword := value);
      case _ =>
    }

    /** `validateSignUp`: the rules checked in order, each failure adding its entry. */
    method ValidateSignUp() returns (ok: bool)
      modifies this`errors
      ensures errors == SignUpErrors(form) && ok == (errors == map[])
    {
      var newErrors: map<AuthField, string> := map[];
      newErrors := AddIf(newErrors, AllWhite(form.name), Name, NameRequired);
      var shaped := MatchEmailPattern(form.email);
      newErrors := AddIf(newErrors, !shaped, Email, EmailInvalid);
      newErrors := AddIf(newErrors, |form.password| < 6, Password, PasswordTooShort);
      newErrors := AddIf(newErrors, form.password != form.confirmPassword, ConfirmPassword, PasswordsDiffer);
      errors := newErrors;
      ok := |newErrors| == 0;
      EmptyMapSize(newErrors);
    }

    /** `validateLogin`. */
    method ValidateLogin() returns (ok: bool)
      modifies this`errors
      ensures errors == LoginErrors(form) && ok == (errors == map[])
    {
      var newErrors: map<AuthField, string> := map[];
      var shaped := MatchEmailPattern(form.email);
      newErrors := AddIf(newErrors, !shaped, Email, EmailInvalid);
      newErrors := AddIf(newErrors, form.password == [], Password, PasswordRequired);
      errors := newErrors;
      ok := |newErrors| == 0;
      EmptyMapSize(newErrors);
    }

    /**
     * `handleSignUp`: on valid input one user is appended, the page switches to login,
     * the name and both passwords are cleared (the e-mail stays) and the errors are cleared.
     * Duplicate e-mails are accepted.
     */
    method SignUp() returns (ok: bool)
      modifies this`errors, this`registeredUsers, this`isLogin, this`form
      ensures ok <==> SignUpErrors(old(form)) == map[]
      ensures !ok ==> (errors == SignUpErrors(old(form)) && registeredUsers == old(registeredUsers)
                       && isLogin == old(isLogin) && form == old(form))
      ensures ok ==> registeredUsers == old(registeredUsers) + [User(old(form).email, old(form).password, old(form).name)]
      ensures ok ==> isLogin && errors == map[]
      ensures ok ==> form == old(form).(password := "", confirmPassword := "", name := "")
    {
      ok := ValidateSignUp();
      if ok {
        registeredUsers := registeredUsers + [User(form.email, form.password, form.name)];
        isLogin := true;
        form := form.(password := "", confirmPassword := "", name := "");
        errors := map[];
      }
    }

    /**
     * `handleLogin`: on valid input the first registered user with that e-mail and password
     * becomes the authenticated user and the role selection opens; otherwise only the
     * login error is set.
     */
    method LogIn() returns (found: bool)
      modifies this`errors, this`form, this`showRoleSelection, this`loginError
      ensures errors == LoginErrors(old(form))
      ensures var user := FindUser(registeredUsers, old(form).email, old(form).password);
        found <==> errors == map[] && user.Some?
      ensures found ==> (form == old(form).(authenticatedUser := FindUser(registeredUsers, old(form).email, old(form).password))
                         && showRoleSelection && loginError == "")
      ensures errors == map[] && !found ==> (loginError == LoginFailed
                         && form == old(form) && showRoleSelection == old(showRoleSelection))
      ensures errors != map[] ==> (form == old(form) && showRoleSelection == old(showRoleSelection)
                         && loginError == old(loginError))
    {
      var valid := ValidateLogin();
      found := false;
      if valid {
        var user := FindUser(registeredUsers, form.email, form.password);
        if user.Some? {
          form := form.(authenticatedUser := user);
          showRoleSelection := true;
          loginError := "";
          found := true;
        } else {
          loginError := LoginFailed;
        }
      }
    }

    /** The "Sign In" tab. */
    method ShowLoginTab()
      modifies this`isLogin, this`loginError
      ensures isLogin && loginError == ""
    {
      isLogin := true;
      loginError := "";
    }

    /** The "Sign Up" tab. */
    method ShowSignUpTab()
      modifies this`isLogin, this`errors
      ensures !isLogin && errors == map[]
    {
      isLogin := false;
      errors := map[];
    }

    /** The "Sign up" and "Sign In" links under the forms: only the mode changes. */
    method FollowLink(toLogin: bool)
      modifies this`isLogin
      ensures isLogin == toLogin
    {
      isLogin := toLogin;
    }

    /** "Back to Login" on the role screen. */
    method BackToLogin()
      modifies this`showRoleSelection, this`isLogin, this`loginError
      ensures !showRoleSelection && isLogin && loginError == ""
    {
      showRoleSelection := false;
      isLogin := true;
      loginError := "";
    }
  }
}
