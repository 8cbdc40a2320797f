/** The landing page's mock account store: registered users live in
    component state, registration validates the form and appends, and login
    looks the user up by name and password. */
module IndexPage {
  import opened Wrappers
  import opened Text
  import opened Ui

  datatype User = User(firstName: string, lastName: string, email: string, dateOfBirth: string, password: string)

  datatype RegisterForm = RegisterForm(
    firstName: string, lastName: string, email: string,
    dateOfBirth: string, password: string, confirmPassword: string)

  datatype LoginForm = LoginForm(firstName: string, lastName: string, password: string)

  const PasswordsDoNotMatch := "Passwords do not match"
  const AllFieldsRequired := "All fields are required"
  const InvalidEmail := "Please enter a valid email address"
  const InvalidCredentials := "Invalid credentials"
  const ProjectInfoRoute := "/project-info"

  // ----------------------------------------------------------------- email

  /** No white space and no `@`: the class `[^\s@]`. */
  predicate NoSpaceOrAt(t: string) {
    forall k | 0 <= k < |t| :: !IsSpace(t[k]) && t[k] != '@'
  }

  /** `/^[^\s@]+@[^\s@]+\.[^\s@]+$/.test(email)`: the email splits as
      A@B.C with A, B and C non-empty and free of white space and `@`. The
      dot may be any dot of the domain that leaves both sides non-empty, so
      B and C may themselves contain dots. */
  predicate IsValidEmail(email: string)
    ensures IsValidEmail(email) ==> |email| >= 5 && '@' in email && email[0] != '@' && email[|email| - 1] != '@'
  {
    exists i, j | 0 < i < |email| && i + 1 < j < |email| - 1 ::
      && email[i] == '@' && email[j] == '.'
      && NoSpaceOrAt(email[..i]) && NoSpaceOrAt(email[i + 1..j]) && NoSpaceOrAt(email[j + 1..])
  }

  /** `d` has a dot that is neither its first nor its last character. */
  predicate HasInnerDot(d: string) {
    exists p | 1 <= p < |d| - 1 :: d[p] == '.'
  }

  /** A second reading of the email rule, by structure: no white space, a
      non-empty local part before the one and only `@`, and a domain with a
      dot strictly inside it. */
  predicate EmailShape(email: string) {
    && (forall k | 0 <= k < |email| :: !IsSpace(email[k]))
    && match IndexOf(email, '@')
       case None => false
       case Some(at) => 0 < at && NoSpaceOrAt(email[at + 1..]) && HasInnerDot(email[at + 1..])
  }

  /** The regular expression and the structural reading accept the same
      addresses. */
  lemma EmailRegexMeansShape(email: string)
    ensures IsValidEmail(email) <==> EmailShape(email)
  {
    if IsValidEmail(email) {
      var i, j :| 0 < i < |email| && i + 1 < j < |email| - 1
        && email[i] == '@' && email[j] == '.'
        && NoSpaceOrAt(email[..i]) && NoSpaceOrAt(email[i + 1..j]) && NoSpaceOrAt(email[j + 1..]);
      SplitHasShape(email, i, j);
    }
    if EmailShape(email) {
      ShapeHasSplit(email);
    }
  }

  lemma SplitHasShape(email: string, i: int, j: int)
    requires 0 < i < |email| && i + 1 < j < |email| - 1
    requires email[i] == '@' && email[j] == '.'
    requires NoSpaceOrAt(email[..i]) && NoSpaceOrAt(email[i + 1..j]) && NoSpaceOrAt(email[j + 1..])
    ensures EmailShape(email)
  {
    assert forall k | 0 <= k < i :: email[k] == email[..i][k];
    assert IsFirst(email, '@', i);
    var d := email[i + 1..];
    assert d == email[i + 1..j] + [email[j]] + email[j + 1..];
    assert NoSpaceOrAt(d);
    assert d[j - i - 1] == '.';
    assert HasInnerDot(d);
    forall k | 0 <= k < |email| ensures !IsSpace(email[k]) {
      if k < i {
        assert email[k] == email[..i][k];
      } else if k > i {
        assert email[k] == d[k - i - 1];
      }
    }
  }

  lemma ShapeHasSplit(email: string)
    requires EmailShape(email)
    ensures IsValidEmail(email)
  {
    var at := IndexOf(email, '@').value;
    var d := email[at + 1..];
    var p :| 1 <= p < |d| - 1 && d[p] == '.';
    var j := at + 1 + p;
    assert email[j] == '.';
    assert NoSpaceOrAt(email[..at]);
    assert email[at + 1..j] == d[..p];
    assert email[j + 1..] == d[p + 1..];
    assert NoSpaceOrAt(email[at + 1..j]) && NoSpaceOrAt(email[j + 1..]);
  }

  // ---------------------------------------------------------- registration

  /** The registration checks in the order the handler runs them, stopping
      at the first that fails: the passwords must agree, then every field
      must be filled, then the email must have the right shape. */
  function RegistrationError(form: RegisterForm): (r: Option<string>)
    ensures r == Some(PasswordsDoNotMatch) <==> form.password != form.confirmPassword
    ensures r == Some(AllFieldsRequired) <==>
      form.password == form.confirmPassword &&
      (form.firstName == "" || form.lastName == "" || form.email == "" || form.dateOfBirth == "" || form.password == "")
    ensures r == Some(InvalidEmail) <==>
      form.password == form.confirmPassword &&
      form.firstName != "" && form.lastName != "" && form.email != "" && form.dateOfBirth != "" && form.password != "" &&
      !IsValidEmail(form.email)
    ensures r.Some? ==> r.value in {PasswordsDoNotMatch, AllFieldsRequired, InvalidEmail}
  {
    if form.password != form.confirmPassword then Some(PasswordsDoNotMatch)
    else if form.firstName == "" || form.lastName == "" || form.email == "" || form.dateOfBirth == "" || form.password == "" then
      Some(AllFieldsRequired)
    else if !IsValidEmail(form.email) then Some(InvalidEmail)
    else None
  }

  /** A form that passes every check describes a user with no empty field
      and a well-formed email. */
  lemma AcceptedFormIsComplete(form: RegisterForm)
    requires RegistrationError(form) == None
    ensures var u := NewUser(form);
      u.firstName != "" && u.lastName != "" && u.email != "" && u.dateOfBirth != "" && u.password != ""
      && u.password == form.confirmPassword && EmailShape(u.email)
  {
    EmailRegexMeansShape(form.email);
  }

  /** The stored user: the form without its confirmation field. Its names
      and password are the ones a later login must give. */
  function NewUser(form: RegisterForm): (u: User)
    ensures Matches(u, LoginForm(form.firstName, form.lastName, form.password))
    ensures u.email == form.email && u.dateOfBirth == form.dateOfBirth
  {
    User(form.firstName, form.lastName, form.email, form.dateOfBirth, form.password)
  }

  // ----------------------------------------------------------------- login

  predicate Matches(u: User, form: LoginForm) {
    u.firstName == form.firstName && u.lastName == form.lastName && u.password == form.password
  }

  /** The position `users.find` stops at: the first user whose first name,
      last name and password equal the form's. */
  function FindUser(users: seq<User>, form: LoginForm): (r: Option<nat>)
    ensures r.Some? ==> r.value < |users| && Matches(users[r.value], form)
    ensures r.Some? ==> forall k | 0 <= k < r.value :: !Matches(users[k], form)
    ensures r.None? <==> forall k | 0 <= k < |users| :: !Matches(users[k], form)
  {
    if |users| == 0 then None
    else if Matches(users[0], form) then Some(0)
    else match FindUser(users[1..], form)
      case None => None
      case Some(i) => Some(i + 1)
  }

  /** Login ignores email and date of birth: two user lists that agree on
      names and passwords give the same answer. */
  lemma FindUserIgnoresEmailAndBirth(users: seq<User>, others: seq<User>, form: LoginForm)
    requires |users| == |others|
    requires forall k | 0 <= k < |users| ::
      users[k].firstName == others[k].firstName && users[k].lastName == others[k].lastName &&
      users[k].password == others[k].password
    ensures FindUser(users, form) == FindUser(others, form)
  {
  }

  /** Appending users never changes who an existing match is: with no
      duplicate check, the earlier registration wins. */
  lemma FindUserAfterAppend(users: seq<User>, more: seq<User>, form: LoginForm)
    ensures FindUser(users, form).Some? ==> FindUser(users + more, form) == FindUser(users, form)
    ensures FindUser(users, form).None? ==>
      match FindUser(more, form)
      case None => FindUser(users + more, form).None?
      case Some(i) => FindUser(users + more, form) == Some(|users| + i)
  {
    var all := users + more;
    assert forall k | 0 <= k < |users| :: all[k] == users[k];
    assert forall k | 0 <= k < |more| :: all[|users| + k] == more[k];
    match FindUser(users, form)
    case Some(i) =>
    case None =>
      match FindUser(more, form)
      case Some(i) =>
        forall k | 0 <= k < |users| + i ensures !Matches(all[k], form) {
          if k >= |users| { assert all[k] == more[k - |users|]; }
        }
      case None =>
        forall k | 0 <= k < |all| ensures !Matches(all[k], form) {
          if k >= |users| { assert all[k] == more[k - |users|]; }
        }
  }

  // ------------------------------------------------------------- the page

  class Index {
    var users: seq<User>
    var currentUser: Option<User>
    var loginOpen: bool
    var registerOpen: bool

    /** The page starts with no users, nobody logged in and both dialogs
        closed. */
    constructor ()
      ensures users == [] && currentUser == None && !loginOpen && !registerOpen
    {
      users := [];
      currentUser := None;
      loginOpen := false;
      registerOpen := false;
    }

    /** `onOpenChange` of the login dialog. */
    method SetLoginOpen(open: bool)
      modifies this`loginOpen
      ensures loginOpen == open
    {
      loginOpen := open;
    }

    /** `onOpenChange` of the registration dialog. */
    method SetRegisterOpen(open: bool)
      modifies this`registerOpen
      ensures registerOpen == open
    {
      registerOpen := open;
    }

    /** `handleRegister`: a rejected form changes nothing and raises the
        first failing check's message; an accepted one appends the new user,
        logs them in, closes the dialog and goes to the project page. */
    method Register(form: RegisterForm) returns (feedback: Feedback)
      modifies this`users, this`currentUser, this`registerOpen
      ensures RegistrationError(form).Some? ==>
        && feedback == ErrorOnly(RegistrationError(form).value)
        && users == old(users) && currentUser == old(currentUser) && registerOpen == old(registerOpen)
      ensures RegistrationError(form).None? ==>
        && feedback == SuccessTo("Registration successful!", ProjectInfoRoute)
        && users == old(users) + [NewUser(form)]
        && currentUser == Some(NewUser(form))
        && !registerOpen
    {
      var error := RegistrationError(form);
      if error.Some? {
        feedback := ErrorOnly(error.value);
        return;
      }
      var newUser := NewUser(form);
      users := users + [newUser];
      currentUser := Some(newUser);
      registerOpen := false;
      feedback := SuccessTo("Registration successful!", ProjectInfoRoute);
    }

    /** `handleLogin`: the first stored user with the form's names and
        password becomes the current user; otherwise nothing changes. The
        user list is never touched. */
    method Login(form: LoginForm) returns (feedback: Feedback)
      modifies this`currentUser, this`loginOpen
      ensures FindUser(users, form).Some? ==>
        && currentUser == Some(users[FindUser(users, form).value])
        && !loginOpen
        && feedback == SuccessTo("Login successful!", ProjectInfoRoute)
      ensures FindUser(users, form).None? ==>
        && currentUser == old(currentUser) && loginOpen == old(loginOpen)
        && feedback == ErrorOnly(InvalidCredentials)
    {
      var found := FindUser(users, form);
      if found.Some? {
        currentUser := Some(users[found.value]);
        loginOpen := false;
        feedback := SuccessTo("Login successful!", ProjectInfoRoute);
      } else {
        feedback := ErrorOnly(InvalidCredentials);
      }
    }
  }

  /** Registering two forms with the same names and password (their emails
      and birth dates may differ or not) stores both users, and logging in
      then selects the first. */
  method RegisterTwiceThenLogin(first: RegisterForm, second: RegisterForm) returns (stored: nat, loggedIn: Option<User>)
    requires RegistrationError(first).None? && RegistrationError(second).None?
    requires first.firstName == second.firstName && first.lastName == second.lastName && first.password == second.password
    ensures stored == 2
    ensures loggedIn == Some(NewUser(first))
  {
    var page := new Index();
    var _ := page.Register(first);
    var _ := page.Register(second);
    stored := |page.users|;
    var _ := page.Login(LoginForm(first.firstName, first.lastName, first.password));
    loggedIn := page.currentUser;
  }
}
