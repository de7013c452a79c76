/** The mock authentication of the web client (src/context/AuthContext.tsx): a list of
    registered users that `register` appends to and `login` searches, the signed-in
    user, and the copy of that user kept in the browser's storage. Passwords live
    only in the registry; the user that is signed in and stored never carries one. */
module AuthContext {
  import opened Wrappers
  import Text

  /** A registry entry, password included. */
  datatype MockUser = MockUser(
    id: string,
    firstName: string,
    lastName: string,
    email: string,
    company: Option<string>,
    password: string)

  /** A signed-in user: a registry entry without its password. */
  datatype User = User(id: string, firstName: string, lastName: string, email: string, company: Option<string>)

  /** What the registration page hands `register`. */
  datatype RegisterData = RegisterData(
    firstName: string,
    lastName: string,
    email: string,
    password: string,
    company: Option<string>)

  /** `const { password: _, ...userWithoutPassword } = u`. */
  function WithoutPassword(u: MockUser): (r: User)
    ensures r.id == u.id && r.email == u.email && r.company == u.company
    ensures r.firstName == u.firstName && r.lastName == u.lastName
  {
    User(u.id, u.firstName, u.lastName, u.email, u.company)
  }

  const DemoEmail: string := "demo@example.com"
  const DemoPassword: string := "password123"

  /** The one user the registry starts with. */
  const DemoUser: MockUser := MockUser("1", "Demo", "User", DemoEmail, Some("Demo Company"), DemoPassword)

  const InvalidCredentials: string := "Invalid credentials"
  const EmailExists: string := "User with this email already exists"

  /** `MOCK_USERS.find(u => u.email === email && u.password === password)`, as an index. */
  function FindLogin(users: seq<MockUser>, email: string, password: string): (r: Option<nat>)
    ensures r.Some? ==> r.value < |users| && users[r.value].email == email && users[r.value].password == password
    ensures r.Some? ==> forall k :: 0 <= k < r.value ==> !(users[k].email == email && users[k].password == password)
    ensures r.None? <==> forall k :: 0 <= k < |users| ==> !(users[k].email == email && users[k].password == password)
  {
    if users == [] then None
    else if users[0].email == email && users[0].password == password then Some(0)
    else match FindLogin(users[1..], email, password)
      case None => None
      case Some(k) => Some(k + 1)
  }

  /** What `login` signs in with: the first entry with that email and password,
      without its password, or the error it throws. */
  function LoginResult(users: seq<MockUser>, email: string, password: string): (r: Result<User>)
    ensures r.Success? <==> exists k :: 0 <= k < |users| && users[k].email == email && users[k].password == password
    ensures r.Failure? ==> r.error == InvalidCredentials
    ensures r.Success? ==> exists k :: 0 <= k < |users| && users[k].email == email && users[k].password == password
                                      && r.value == WithoutPassword(users[k])
  {
    match FindLogin(users, email, password)
    case None => Failure(InvalidCredentials)
    case Some(k) => Success(WithoutPassword(users[k]))
  }

  /** `MOCK_USERS.some(u => u.email === email)`. */
  function HasEmail(users: seq<MockUser>, email: string): (r: bool)
    ensures r <==> exists k :: 0 <= k < |users| && users[k].email == email
  {
    if users == [] then false else users[0].email == email || HasEmail(users[1..], email)
  }

  /** The entry `register` creates: the next identifier, and a company only when a
      non-empty one is given. */
  function NewUser(users: seq<MockUser>, data: RegisterData): (r: MockUser)
    ensures r.id == Text.NatToString(|users| + 1)
    ensures r.email == data.email && r.password == data.password
    ensures r.company.Some? <==> Text.Truthy(data.company)
    ensures r.company.Some? ==> r.company == data.company
  {
    MockUser(Text.NatToString(|users| + 1), data.firstName, data.lastName, data.email,
             if Text.Truthy(data.company) then data.company else None, data.password)
  }

  /** The registry's shape: identifiers are "1", "2", … by position, and no email
      is registered twice. */
  predicate WellFormedRegistry(users: seq<MockUser>) {
    && (forall i :: 0 <= i < |users| ==> users[i].id == Text.NatToString(i + 1))
    && (forall i, j :: 0 <= i < j < |users| ==> users[i].email != users[j].email)
  }

  /** `register` keeps the registry's shape. */
  lemma RegisterKeepsRegistry(users: seq<MockUser>, data: RegisterData)
    requires WellFormedRegistry(users) && !HasEmail(users, data.email)
    ensures WellFormedRegistry(users + [NewUser(users, data)])
  {
    var after := users + [NewUser(users, data)];
    forall i, j | 0 <= i < j < |after| ensures after[i].email != after[j].email {
      if j == |users| {
        assert after[i] == users[i];
      } else {
        assert after[i] == users[i] && after[j] == users[j];
      }
    }
  }

  /** A user who has just registered can sign in with the same email and password,
      and is then signed in as the entry `register` created. */
  lemma RegisterThenLogin(users: seq<MockUser>, data: RegisterData)
    requires !HasEmail(users, data.email)
    ensures LoginResult(users + [NewUser(users, data)], data.email, data.password)
      == Success(WithoutPassword(NewUser(users, data)))
  {
    var after := users + [NewUser(users, data)];
    var found := FindLogin(after, data.email, data.password);
    assert after[|users|] == NewUser(users, data);
    assert found.Some?;
  }

  /** With no email registered twice, a login that succeeds signs in the one entry
      with that email. */
  lemma LoginIsUnique(users: seq<MockUser>, email: string, password: string, k: nat)
    requires WellFormedRegistry(users)
    requires k < |users| && users[k].email == email && users[k].password == password
    ensures LoginResult(users, email, password) == Success(WithoutPassword(users[k]))
  {
    var found := FindLogin(users, email, password);
    assert found.Some?;
  }

  /** The provider's state. `mockUsers` is the module-level registry and `stored`
      the storage entry under 'expertAssistUser', already parsed. */
  class AuthProvider {
    var mockUsers: seq<MockUser>
    var user: Option<User>
    var isAuthenticated: bool
    var isLoading: bool
    var stored: Option<User>

    /** The registry is well formed; a user is signed in exactly when one is set, and
        the signed-in user is the one in storage. */
    predicate Valid()
      reads this
    {
      && WellFormedRegistry(mockUsers)
      && (isAuthenticated <==> user.Some?)
      && (user.Some? ==> stored == user)
    }

    /** Mounting the provider, with `stored` what the storage holds. */
    constructor(stored: Option<User>)
      ensures Valid()
      ensures mockUsers == [DemoUser] && user.None? && !isAuthenticated && isLoading && this.stored == stored
    {
      mockUsers := [DemoUser];
      user := None;
      isAuthenticated := false;
      isLoading := true;
      this.stored := stored;
    }

    /** `checkAuth`: a stored user is signed in again. */
    method CheckAuth()
      requires Valid()
      modifies this`user, this`isAuthenticated, this`isLoading
      ensures Valid()
      ensures stored.Some? ==> user == stored && isAuthenticated
      ensures stored.None? ==> user == old(user) && isAuthenticated == old(isAuthenticated)
      ensures !isLoading
    {
      if stored.Some? {
        user := stored;
        isAuthenticated := true;
      }
      isLoading := false;
    }

    /** `login`: signs in the first entry with that email and password, or answers
        'Invalid credentials' and leaves the session as it was. */
    method Login(email: string, password: string) returns (r: Outcome)
      requires Valid()
      modifies this`user, this`isAuthenticated, this`isLoading, this`stored
      ensures Valid()
      ensures mockUsers == old(mockUsers) && !isLoading
      ensures r.Pass? <==> LoginResult(mockUsers, email, password).Success?
      ensures r.Pass? ==> user == Some(LoginResult(mockUsers, email, password).value) && isAuthenticated
      ensures r.Fail? ==> r.error == InvalidCredentials
      ensures r.Fail? ==> user == old(user) && isAuthenticated == old(isAuthenticated) && stored == old(stored)
    {
      isLoading := true;
      var found := LoginResult(mockUsers, email, password);
      if found.Failure? {
        isLoading := false;
        return Fail(found.error);
      }
      user := Some(found.value);
      stored := user;
      isAuthenticated := true;
      isLoading := false;
      r := Pass;
    }

    /** `register`: refuses an email already registered; otherwise appends exactly
        one entry and signs it in. */
    method Register(data: RegisterData) returns (r: Outcome)
      requires Valid()
      modifies this
      ensures Valid()
      ensures !isLoading
      ensures r.Fail? <==> HasEmail(old(mockUsers), data.email)
      ensures r.Fail? ==> r.error == EmailExists && mockUsers == old(mockUsers)
      ensures r.Fail? ==> user == old(user) && isAuthenticated == old(isAuthenticated) && stored == old(stored)
      ensures r.Pass? ==> mockUsers == old(mockUsers) + [NewUser(old(mockUsers), data)]
      ensures r.Pass? ==> user == Some(WithoutPassword(NewUser(old(mockUsers), data))) && isAuthenticated
    {
      isLoading := true;
      if HasEmail(mockUsers, data.email) {
        isLoading := false;
        return Fail(EmailExists);
      }
      var created := NewUser(mockUsers, data);
      RegisterKeepsRegistry(mockUsers, data);
      mockUsers := mockUsers + [created];
      user := Some(WithoutPassword(created));
      stored := user;
      isAuthenticated := true;
      isLoading := false;
      r := Pass;
    }

    /** `logout`: nobody is signed in and the storage entry is gone. */
    method Logout()
      requires Valid()
      modifies this`user, this`isAuthenticated, this`stored
      ensures Valid()
      ensures user.None? && !isAuthenticated && stored.None?
    {
      user := None;
      isAuthenticated := false;
      stored := None;
    }
  }
}
