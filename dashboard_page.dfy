/**
 * The dashboard page: a spinner while the session and profile load, a
 * redirect to the login page when there is no signed-in user, "Unable to
 * load profile" without a profile, and otherwise the one dashboard that
 * matches the profile's role.
 */
module DashboardPage {
  import opened Wrappers
  import opened Seqs
  import opened Catalog

  /** The authenticated session; only its user's id is used. */
  datatype Session = Session(userId: Id)

  datatype Panel = AdminPanel | UserPanel | OwnerPanel

  /** What the page renders. */
  datatype Screen =
    | Loading
    | ProfileUnavailable
    | Main(headerName: string, headerRole: string, panels: seq<Panel>)

  /** The three independent `userProfile.role === ...` conditions, in page order. */
  function Panels(role: string): (r: seq<Panel>)
    ensures |r| <= 1
    ensures r == [AdminPanel] <==> role == "admin"
    ensures r == [UserPanel] <==> role == "user"
    ensures r == [OwnerPanel] <==> role == "owner"
    ensures r == [] <==> role !in {"admin", "user", "owner"}
  {
    var r := (if role == "admin" then [AdminPanel] else []) +
             (if role == "user" then [UserPanel] else []) +
             (if role == "owner" then [OwnerPanel] else []);
    assert "admin"[0] != "user"[0] && "admin"[0] != "owner"[0] && "user"[0] != "owner"[0];
    assert role == "admin" ==> r == [AdminPanel];
    assert role == "user" ==> r == [UserPanel];
    assert role == "owner" ==> r == [OwnerPanel];
    assert role !in {"admin", "user", "owner"} ==> r == [];
    r
  }

  /** The render branches of the page. */
  function Render(loading: bool, profile: Option<User>): (s: Screen)
    ensures s.Loading? <==> loading
    ensures s.ProfileUnavailable? <==> !loading && profile.None?
    ensures s.Main? ==> profile.Some? && s == Main(profile.value.name, profile.value.role, Panels(profile.value.role))
  {
    if loading then Loading
    else if profile.None? then ProfileUnavailable
    else Main(profile.value.name, profile.value.role, Panels(profile.value.role))
  }

  /** The effect that navigates to `/login`. */
  predicate RedirectsToLogin(loading: bool, user: Option<Id>)
  {
    !loading && user.None?
  }

  /** No screen ever shows two dashboards, and none shows one without a profile. */
  lemma AtMostOneDashboard(loading: bool, profile: Option<User>)
    ensures Render(loading, profile).Main? ==> |Render(loading, profile).panels| <= 1
    ensures !Render(loading, profile).Main? ==> profile.None? || loading
  {
  }

  /** `from('users').select('*').eq('id', id).single()`: the one user row with that id, none unless there is exactly one. */
  function ProfileOf(users: seq<User>, id: Id): (r: Option<User>)
    ensures r.Some? <==> |Select(users, (u: User) => u.id == id)| == 1
    ensures r.Some? ==> r.value in users && r.value.id == id
  {
    var rows := Select(users, (u: User) => u.id == id);
    if |rows| == 1 then
      assert rows[0] in rows;
      Some(rows[0])
    else None
  }

  /** The page's state; `db` stands for the hosted `users` table. */
  class Component {
    const db: Database
    var session: Option<Session>
    var user: Option<Id>
    var userProfile: Option<User>
    var loading: bool

    constructor (db: Database)
      ensures this.db == db
      ensures session == None && user == None && userProfile == None && loading
    {
      this.db := db;
      session := None;
      user := None;
      userProfile := None;
      loading := true;
    }

    /** `fetchUserProfile`: `loading` ends on both paths; the profile is set only on success. */
    method FetchUserProfile(id: Id, queryOk: bool)
      modifies this`userProfile, this`loading
      ensures !loading
      ensures var p := if queryOk then ProfileOf(db.users, id) else None;
              userProfile == if p.Some? then p else old(userProfile)
    {
      var p := if queryOk then ProfileOf(db.users, id) else None;
      if p.None? {
        loading := false;
        return;
      }
      userProfile := p;
      loading := false;
    }

    /**
     * The session callback (`onAuthStateChange` and `getSession` alike):
     * record the session and its user, then load the profile or stop loading.
     */
    method OnSession(s: Option<Session>, queryOk: bool)
      modifies this`session, this`user, this`userProfile, this`loading
      ensures session == s
      ensures user == if s.Some? then Some(s.value.userId) else None
      ensures !loading
      ensures s.None? ==> userProfile == old(userProfile)
      ensures s.Some? ==>
                var p := if queryOk then ProfileOf(db.users, s.value.userId) else None;
                userProfile == if p.Some? then p else old(userProfile)
    {
      session := s;
      user := if s.Some? then Some(s.value.userId) else None;
      if s.Some? {
        FetchUserProfile(s.value.userId, queryOk);
      } else {
        loading := false;
      }
    }

    function Screen(): Screen
      reads this
    {
      Render(loading, userProfile)
    }

    predicate Redirects()
      reads this
    {
      RedirectsToLogin(loading, user)
    }
  }

  /** Opening the page without a session ends in the redirect to `/login`, with no dashboard rendered. */
  method SignedOutRedirects(db: Database, queryOk: bool) returns (redirect: bool, s: Screen)
    ensures redirect && s == ProfileUnavailable
  {
    var page := new Component(db);
    page.OnSession(None, queryOk);
    redirect := page.Redirects();
    s := page.Screen();
  }

  /** A signed-in user whose profile loads sees exactly the dashboard of their role, and no redirect. */
  method SignedInSeesOwnDashboard(db: Database, id: Id) returns (redirect: bool, s: Screen)
    requires ProfileOf(db.users, id).Some?
    ensures !redirect
    ensures var p := ProfileOf(db.users, id).value;
            s == Main(p.name, p.role, Panels(p.role))
  {
    var page := new Component(db);
    page.OnSession(Some(Session(id)), true);
    redirect := page.Redirects();
    s := page.Screen();
  }

  /** A signed-in user whose profile query fails sees "Unable to load profile" and no dashboard. */
  method FailedProfileShowsNoDashboard(db: Database, id: Id) returns (redirect: bool, s: Screen)
    ensures !redirect && s == ProfileUnavailable
  {
    var page := new Component(db);
    page.OnSession(Some(Session(id)), false);
    redirect := page.Redirects();
    s := page.Screen();
  }
}
