/**
 * The demo authentication service of src/utils/auth.ts: two credential
 * validators that either throw an error with a fixed message or return the
 * placeholder user, and a session store that keeps the signed-in user under
 * one key of the browser's key-value storage.
 */
module AuthService {
  import opened Wrappers
  import opened EmailPattern

  /** A signed-in user. `createdAt` is an ISO timestamp, kept as an opaque string. */
  datatype User = User(id: string, email: string, createdAt: string)

  datatype LoginCredentials = LoginCredentials(email: string, password: string)

  datatype SignupCredentials = SignupCredentials(email: string, password: string, confirmPassword: string)

  const DemoUserId: string := "demo-user-123"
  const MinPasswordLength: nat := 6
  /** The one storage key the service reads and writes. */
  const StorageKey: string := "auth-demo-user"

  const LoginRequiredMessage: string := "Email and password are required"
  const InvalidCredentialsMessage: string := "Invalid credentials"
  const AllFieldsRequiredMessage: string := "All fields are required"
  const PasswordMismatchMessage: string := "Passwords do not match"
  const PasswordTooShortMessage: string := "Password must be at least 6 characters long"
  const InvalidEmailMessage: string := "Please enter a valid email address"

  /**
   * The placeholder user every successful call is built from. Its timestamp is
   * taken once, when the module is loaded, so it is a parameter here.
   */
  function MockUser(loadedAt: string): User
  {
    User(DemoUserId, "", loadedAt)
  }

  /**
   * JavaScript's `length` of a string: the number of UTF-16 code units, so a
   * character outside the Basic Multilingual Plane counts twice.
   */
  function Utf16Length(s: string): (n: nat)
    ensures |s| <= n <= 2 * |s|
    ensures n == |s| <==> forall k :: 0 <= k < |s| ==> s[k] as int <= 0xFFFF
  {
    if s == [] then 0
    else
      var rest := Utf16Length(s[1..]);
      assert forall k :: 1 <= k < |s| ==> s[k] == s[1..][k - 1];
      (if s[0] as int > 0xFFFF then 2 else 1) + rest
  }

  /** `login`: both fields must be non-empty, then the password must have at least six code units. */
  function Login(c: LoginCredentials, loadedAt: string): (r: Result<User, string>)
    ensures r == Failure(LoginRequiredMessage) <==> c.email == [] || c.password == []
    ensures r == Failure(InvalidCredentialsMessage) <==>
              c.email != [] && c.password != [] && Utf16Length(c.password) < MinPasswordLength
    ensures r.Success? <==> c.email != [] && Utf16Length(c.password) >= MinPasswordLength
    ensures r.Success? ==> r.value == User(DemoUserId, c.email, loadedAt)
  {
    if c.email == [] || c.password == [] then Failure(LoginRequiredMessage)
    else if Utf16Length(c.password) < MinPasswordLength then Failure(InvalidCredentialsMessage)
    else Success(MockUser(loadedAt).(email := c.email))
  }

  predicate AnyFieldEmpty(c: SignupCredentials)
  {
    c.email == [] || c.password == [] || c.confirmPassword == []
  }

  /**
   * `signup`: four checks in a fixed order, each reporting its own message;
   * the first one that fails decides the error.
   */
  function Signup(c: SignupCredentials, loadedAt: string): (r: Result<User, string>)
    ensures r == Failure(AllFieldsRequiredMessage) <==> AnyFieldEmpty(c)
    ensures r == Failure(PasswordMismatchMessage) <==>
              !AnyFieldEmpty(c) && c.password != c.confirmPassword
    ensures r == Failure(PasswordTooShortMessage) <==>
              !AnyFieldEmpty(c) && c.password == c.confirmPassword &&
              Utf16Length(c.password) < MinPasswordLength
    ensures r == Failure(InvalidEmailMessage) <==>
              !AnyFieldEmpty(c) && c.password == c.confirmPassword &&
              Utf16Length(c.password) >= MinPasswordLength && !IsValidEmail(c.email)
    ensures r.Success? <==>
              c.password == c.confirmPassword && Utf16Length(c.password) >= MinPasswordLength &&
              IsValidEmail(c.email)
    ensures r.Success? ==> r.value == User(DemoUserId, c.email, loadedAt)
  {
    if AnyFieldEmpty(c) then Failure(AllFieldsRequiredMessage)
    else if c.password != c.confirmPassword then Failure(PasswordMismatchMessage)
    else if Utf16Length(c.password) < MinPasswordLength then Failure(PasswordTooShortMessage)
    else if !IsValidEmail(c.email) then Failure(InvalidEmailMessage)
    else Success(MockUser(loadedAt).(email := c.email))
  }

  /** A successful signup has matching passwords of six or more code units and an address the regular expression accepts. */
  lemma SignupSuccessMeansValid(c: SignupCredentials, loadedAt: string)
    requires Signup(c, loadedAt).Success?
    ensures c.password == c.confirmPassword && Utf16Length(c.password) >= MinPasswordLength
    ensures MatchesPattern(c.email)
    ensures Signup(c, loadedAt).value.email == c.email
  {
    PatternIffValidEmail(c.email);
  }

  /** Whoever signs up successfully can log in with the same address and password, and gets the same user. */
  lemma SignedUpUserCanLogIn(c: SignupCredentials, loadedAt: string)
    requires Signup(c, loadedAt).Success?
    ensures Login(LoginCredentials(c.email, c.password), loadedAt) == Signup(c, loadedAt)
  {
  }

  /** `login` never looks at the address format: an address without `@` is accepted. */
  lemma LoginIgnoresEmailFormat(loadedAt: string)
    ensures !MatchesPattern("demo")
    ensures Login(LoginCredentials("demo", "secret"), loadedAt) == Success(User(DemoUserId, "demo", loadedAt))
  {
  }

  /**
   * The browser storage the service uses, with serialisation to JSON taken as
   * the identity: a map from keys to stored users.
   */
  class SessionStore {
    var items: map<string, User>

    /** A store holding whatever the storage held when the page loaded. */
    constructor (items: map<string, User>)
      ensures this.items == items
    {
      this.items := items;
    }

    /** `getCurrentUser`: the user stored under the key, or none. */
    function CurrentUser(): (u: Option<User>)
      reads this
      ensures u.Some? <==> StorageKey in items
      ensures u.Some? ==> items[StorageKey] == u.value
    {
      if StorageKey in items then Some(items[StorageKey]) else None
    }

    /** `setCurrentUser`: stores `u` under the key; every other key keeps its entry. */
    method SetCurrentUser(u: User)
      modifies this
      ensures items == old(items)[StorageKey := u]
      ensures CurrentUser() == Some(u)
      ensures forall k :: k != StorageKey ==> (k in items <==> k in old(items))
      ensures forall k :: k != StorageKey && k in items ==> items[k] == old(items)[k]
    {
      items := items[StorageKey := u];
    }

    /** `logout`: removes the key; every other key keeps its entry. */
    method Logout()
      modifies this
      ensures items == old(items) - {StorageKey}
      ensures CurrentUser() == None
      ensures forall k :: k != StorageKey ==> (k in items <==> k in old(items))
      ensures forall k :: k != StorageKey && k in items ==> items[k] == old(items)[k]
    {
      items := items - {StorageKey};
    }
  }
}
