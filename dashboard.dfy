/** The dashboard page: the greeting name derived from the admin's email,
    the user overview counts, and the redirect of a signed-out visitor. */
module Dashboard {
  import opened Wrappers
  import opened Text
  import opened Sequences
  import AuthContext

  // ---------------------------------------------------------------------
  // getAdminName

  /** `getAdminName`: `"Admin"` for a null or empty email, otherwise
      `email.split('@')[0]` with its first character upper-cased. */
  function GetAdminName(email: Option<string>): string
  {
    if email == None || email.value == [] then "Admin"
    else
      var local := Split(email.value, '@')[0];
      ToUpper(CharAt(local, 0)) + SliceFrom(local, 1)
  }

  /** Reference for the greeting: `w` with its first character upper-cased
      and the rest unchanged. */
  function Capitalized(w: string): string
  {
    if w == [] then [] else [UpperChar(w[0])] + w[1..]
  }

  /** No email, or an empty one, greets "Admin". */
  lemma AdminNameDefault()
    ensures GetAdminName(None) == "Admin"
    ensures GetAdminName(Some("")) == "Admin"
  {
  }

  /** For a non-empty email the greeting is the text before the first `@`,
      capitalised; it is exactly as long as that text. */
  lemma AdminNameIsCapitalizedLocalPart(email: string, local: string)
    requires email != []
    requires IsBeforeFirst(email, '@', local)
    ensures GetAdminName(Some(email)) == Capitalized(local)
    ensures |GetAdminName(Some(email))| == |local|
  {
    SplitHeadIsBeforeFirst(email, '@');
    BeforeFirstUnique(email, '@', local, Split(email, '@')[0]);
    if local != [] {
      assert ToUpper(CharAt(local, 0)) == [UpperChar(local[0])];
    }
  }

  /** An email without `@` is greeted by the whole string, capitalised. */
  lemma AdminNameWithoutAt(email: string)
    requires email != [] && '@' !in email
    ensures GetAdminName(Some(email)) == [UpperChar(email[0])] + email[1..]
  {
    assert IsBeforeFirst(email, '@', email);
    AdminNameIsCapitalizedLocalPart(email, email);
  }

  /** An email starting with `@` yields the empty greeting. */
  lemma AdminNameLeadingAt(email: string)
    requires email != [] && email[0] == '@'
    ensures GetAdminName(Some(email)) == []
  {
    assert IsBeforeFirst(email, '@', []);
    AdminNameIsCapitalizedLocalPart(email, []);
  }

  // ---------------------------------------------------------------------
  // the user overview counts

  datatype User = User(id: int, name: string, email: string, role: string, status: string)

  /** The sample users the page lists. */
  const DummyUsers: seq<User> := [
    User(1, "John Smith", "john.smith@example.com", "User", "Active"),
    User(2, "Sarah Johnson", "sarah.j@example.com", "User", "Active"),
    User(3, "Michael Chen", "mchen@example.com", "Manager", "Active"),
    User(4, "Emily Davis", "emily.d@example.com", "User", "Inactive"),
    User(5, "David Wilson", "dwilson@example.com", "Manager", "Active"),
    User(6, "Lisa Anderson", "l.anderson@example.com", "User", "Active")
  ]

  /** `users.filter(keep)`: exactly the users `keep` accepts, in order. */
  function UsersWhere(users: seq<User>, keep: User -> bool): (r: seq<User>)
    ensures forall u :: u in r <==> u in users && keep(u)
    ensures IsSubsequence(r, users)
    decreases |users|
  {
    if users == [] then []
    else if keep(users[0]) then [users[0]] + UsersWhere(users[1..], keep)
    else UsersWhere(users[1..], keep)
  }

  /** The filter keeps each accepted user as many times as it occurs, and
      no other user. */
  lemma {:induction false} UsersWhereCounts(users: seq<User>, keep: User -> bool)
    ensures forall u :: multiset(UsersWhere(users, keep))[u] == if keep(u) then multiset(users)[u] else 0
    decreases |users|
  {
    if users != [] {
      UsersWhereCounts(users[1..], keep);
      assert users == [users[0]] + users[1..];
    }
  }

  predicate IsActive(u: User) { u.status == "Active" }

  predicate IsManager(u: User) { u.role == "Manager" }

  /** The "Active" figure: never more than the "Total" figure, and equal to
      it exactly when every user is active. */
  function ActiveCount(users: seq<User>): (n: nat)
    ensures n <= |users|
    ensures n == |users| <==> forall u :: u in users ==> IsActive(u)
  {
    CountIsTotalIff(users, IsActive);
    |UsersWhere(users, IsActive)|
  }

  /** The "Managers" figure: never more than the "Total" figure, and equal
      to it exactly when every user is a manager. */
  function ManagerCount(users: seq<User>): (n: nat)
    ensures n <= |users|
    ensures n == |users| <==> forall u :: u in users ==> IsManager(u)
  {
    CountIsTotalIff(users, IsManager);
    |UsersWhere(users, IsManager)|
  }

  /** A filtered count reaches the total exactly when every user passes. */
  lemma {:induction false} CountIsTotalIff(users: seq<User>, keep: User -> bool)
    ensures |UsersWhere(users, keep)| <= |users|
    ensures |UsersWhere(users, keep)| == |users| <==> forall u :: u in users ==> keep(u)
    decreases |users|
  {
    if users != [] {
      CountIsTotalIff(users[1..], keep);
      assert users[0] in users;
      if keep(users[0]) {
        forall u | u in users[1..] ensures u in users {
        }
        assert users == [users[0]] + users[1..];
      }
    }
  }

  /** Counting user by user: the empty list counts 0, and one more user
      adds 1 exactly when it passes. */
  lemma {:induction false} CountSnoc(users: seq<User>, u: User, keep: User -> bool)
    ensures |UsersWhere([], keep)| == 0
    ensures |UsersWhere(users + [u], keep)| == |UsersWhere(users, keep)| + (if keep(u) then 1 else 0)
    decreases |users|
  {
    if users == [] {
      assert users + [u] == [u];
    } else {
      assert (users + [u])[0] == users[0];
      assert (users + [u])[1..] == users[1..] + [u];
      CountSnoc(users[1..], u, keep);
    }
  }

  /** The sample users one at a time: each suffix starts with its first
      user and continues with the next suffix. */
  lemma SampleSuffixes()
    ensures forall k :: 0 <= k < 6 ==> DummyUsers[k..][0] == DummyUsers[k] && DummyUsers[k..][1..] == DummyUsers[k + 1..]
    ensures DummyUsers[6..] == [] && DummyUsers[0..] == DummyUsers
  {
  }

  lemma SampleActiveCount()
    ensures ActiveCount(DummyUsers) == 5
  {
    var d := DummyUsers;
    SampleSuffixes();
    assert |UsersWhere(d[5..], IsActive)| == 1;
    assert |UsersWhere(d[4..], IsActive)| == 2;
    assert |UsersWhere(d[3..], IsActive)| == 2;
    assert |UsersWhere(d[2..], IsActive)| == 3;
    assert |UsersWhere(d[1..], IsActive)| == 4;
  }

  lemma SampleManagerCount()
    ensures ManagerCount(DummyUsers) == 2
  {
    var d := DummyUsers;
    SampleSuffixes();
    assert |UsersWhere(d[5..], IsManager)| == 0;
    assert |UsersWhere(d[4..], IsManager)| == 1;
    assert |UsersWhere(d[3..], IsManager)| == 1;
    assert |UsersWhere(d[2..], IsManager)| == 2;
    assert |UsersWhere(d[1..], IsManager)| == 2;
  }

  /** On the sample data the page shows 6 users, 5 active, 2 managers. */
  lemma DummyUserCounts()
    ensures |DummyUsers| == 6 && ActiveCount(DummyUsers) == 5 && ManagerCount(DummyUsers) == 2
  {
    SampleActiveCount();
    SampleManagerCount();
  }

  // ---------------------------------------------------------------------
  // the signed-out redirect

  /** The page's effect: a signed-out visitor is sent to the home route;
      a signed-in one stays where they are. */
  function GuardedRoute(isAuthenticated: bool, route: string): (r: string)
    ensures !isAuthenticated ==> r == AuthContext.HomeRoute
    ensures isAuthenticated ==> r == route
  {
    if !isAuthenticated then AuthContext.HomeRoute else route
  }

  /** After a successful login the dashboard stays open; after a logout it
      sends the visitor home. */
  lemma GuardAfterLoginAndLogout(s: AuthContext.Session, email: string, password: string)
    requires email != [] && password != []
    ensures var t := AuthContext.LoggedIn(s, email, password);
      GuardedRoute(t.isAuthenticated, t.route) == AuthContext.DashboardRoute
    ensures var t := AuthContext.LoggedOut(s);
      GuardedRoute(t.isAuthenticated, t.route) == AuthContext.HomeRoute
  {
  }
}
