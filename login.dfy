/**
 * The login page (src/pages/Login.tsx): the submitted credentials are looked up among three
 * demo users; a match signs in through `fakeAuth` and navigates to the role's page, a miss
 * shows an error.
 */
module Login {
  import opened Wrappers
  import opened Seqs
  import opened ZKTeco
  import Routing

  datatype DemoUser = DemoUser(username: string, password: string, role: Routing.GuardRole)

  /** `demoUsers`, in order. */
  const DemoUsers: seq<DemoUser> := [
    DemoUser("admin", "admin123", AdminRole),
    DemoUser("manager", "manager123", ManagementRole),
    DemoUser("gate", "gate123", GateRole)
  ]

  predicate Matches(username: string, password: string, u: DemoUser) {
    u.username == username && u.password == password
  }

  function CredentialTest(username: string, password: string): DemoUser -> bool {
    u => Matches(username, password, u)
  }

  /** The `demoUsers.find` lookup: exact, case-sensitive match on both fields. */
  function FindDemoUser(username: string, password: string): (r: Option<DemoUser>)
    ensures r.Some? <==> exists i :: 0 <= i < |DemoUsers| && Matches(username, password, DemoUsers[i])
    ensures r.Some? ==> r.value in DemoUsers && r.value.username == username && r.value.password == password
  {
    Find(DemoUsers, CredentialTest(username, password))
  }

  /** No two demo users share a username. */
  lemma DemoUsernamesDistinct()
    ensures forall i, j :: 0 <= i < |DemoUsers| && 0 <= j < |DemoUsers| && DemoUsers[i].username == DemoUsers[j].username ==> i == j
  {
  }

  /** Hence the record whose credentials are entered is the one found. */
  lemma MatchingRecordIsFound(i: nat)
    requires i < |DemoUsers|
    ensures FindDemoUser(DemoUsers[i].username, DemoUsers[i].password) == Some(DemoUsers[i])
  {
  }

  /** The page a signed-in role is sent to; it is a route guarded by that same role. */
  function NavigationTarget(role: Routing.GuardRole): (path: string)
    ensures Routing.RouteFor(path).Guarded? && Routing.RouteFor(path).role == role
    ensures role == AdminRole <==> path == "/admin"
    ensures role == ManagementRole <==> path == "/management"
    ensures role == GateRole <==> path == "/gate"
  {
    match role
    case AdminRole => "/admin"
    case ManagementRole => "/management"
    case GateRole => "/gate"
  }

  const InvalidCredentialsMessage: string := "Invalid username or password"

  /** The module-level `fakeAuth` object the login page writes to. */
  class FakeAuth {
    var isAuthenticated: bool
    var role: Option<Routing.GuardRole>

    constructor(isAuthenticated0: bool, role0: Option<Routing.GuardRole>)
      ensures isAuthenticated == isAuthenticated0 && role == role0
    {
      isAuthenticated := isAuthenticated0;
      role := role0;
    }
  }

  /**
   * `handleSubmit`: on a match `fakeAuth` records the sign-in and role, the error is cleared and
   * the role's page is opened; otherwise the error is shown and nothing else happens.
   */
  method HandleSubmit(auth: FakeAuth, username: string, password: string)
    returns (error: string, navigateTo: Option<string>)
    modifies auth
    ensures FindDemoUser(username, password).Some? ==>
              var u := FindDemoUser(username, password).value;
              && auth.isAuthenticated && auth.role == Some(u.role)
              && error == "" && navigateTo == Some(NavigationTarget(u.role))
    ensures FindDemoUser(username, password).None? ==>
              error == InvalidCredentialsMessage && navigateTo.None? && unchanged(auth)
  {
    var user := FindDemoUser(username, password);
    if user.Some? {
      auth.isAuthenticated := true;
      auth.role := Some(user.value.role);
      error := "";
      navigateTo := Some(NavigationTarget(user.value.role));
    } else {
      error := InvalidCredentialsMessage;
      navigateTo := None;
    }
  }

  /**
   * The login page signs in through `fakeAuth`, which the route guard never reads: navigating to
   * the role's page with a signed-out ZKTeco session is redirected back to the login page.
   */
  lemma FakeSignInDoesNotPassGuard(role: Routing.GuardRole, session: AuthState)
    requires !session.isAuthenticated
    ensures Routing.Resolve(NavigationTarget(role), session)
         == Routing.Redirected(Routing.LoginPath, Some(NavigationTarget(role)))
  {
  }
}
