/** Sign-in state and the permission gate of `AuthContext.tsx`: a fixed user
    table, a fixed role-to-permission table, and a `user` that is either absent
    (logged out) or one of the table's records. */
module Auth {
  import opened Wrappers
  import opened Seqs

  datatype Role = Admin | Procurement | Sales | Accountant | Warehouse | Manager

  datatype User = User(id: string, name: string, email: string, role: Role)

  const DemoUsers: seq<User> := [
    User("1", "Admin User", "admin@ricetrade.com", Admin),
    User("2", "Procurement Officer", "procurement@ricetrade.com", Procurement),
    User("3", "Sales Manager", "sales@ricetrade.com", Sales),
    User("4", "Accountant", "finance@ricetrade.com", Accountant),
    User("5", "Warehouse Manager", "warehouse@ricetrade.com", Warehouse)
  ]

  /** `ROLE_PERMISSIONS`. */
  function RolePermissions(role: Role): seq<string>
  {
    match role
    case Admin => ["all"]
    case Procurement => ["suppliers", "purchase_orders", "inventory_read"]
    case Sales => ["customers", "sales_orders", "inventory_read"]
    case Accountant => ["finance", "reports", "customers_read", "suppliers_read"]
    case Warehouse => ["inventory", "stock_transfers", "logistics"]
    case Manager => ["reports", "dashboard", "all_read"]
  }

  /** `hasPermission(permission)` while the signed-in user is `user`: nothing
      when logged out; otherwise the role's list holds `'all'` or the permission. */
  function Permits(user: Option<User>, permission: string): (r: bool)
    ensures r <==> user.Some? && (user.value.role == Admin || permission in RolePermissions(user.value.role))
  {
    user.Some? &&
    var granted := RolePermissions(user.value.role);
    "all" in granted || permission in granted
  }

  /** Logged out, every permission is refused. */
  lemma LoggedOutHasNoPermission(permission: string)
    ensures !Permits(None, permission)
  {
  }

  /** A role whose list holds `'all'` is granted every string, and admin is the only such role. */
  lemma AllIsAWildcard(u: User, permission: string)
    ensures "all" in RolePermissions(u.role) <==> u.role == Admin
    ensures u.role == Admin ==> Permits(Some(u), permission)
  {
  }

  /** For every role but admin the check is plain membership: `'all_read'` and
      the other `_read` entries grant nothing beyond themselves. */
  lemma NonAdminIsExactMembership(u: User, permission: string)
    requires u.role != Admin
    ensures Permits(Some(u), permission) <==> permission in RolePermissions(u.role)
  {
    assert "all" !in RolePermissions(u.role);
  }

  /** Examples of the exact lookup: warehouse staff may see inventory but not
      finance, and a manager's `'all_read'` does not grant `'finance'`. */
  lemma ExactLookupExamples(w: User, m: User)
    requires w.role == Warehouse && m.role == Manager
    ensures Permits(Some(w), "inventory") && !Permits(Some(w), "finance")
    ensures Permits(Some(m), "all_read") && !Permits(Some(m), "finance") && !Permits(Some(m), "all")
  {
    NonAdminIsExactMembership(w, "finance");
    NonAdminIsExactMembership(m, "finance");
    NonAdminIsExactMembership(m, "all");
  }

  /** `DEMO_USERS.find(u => u.email === email)`. */
  function FindUser(email: string): (r: Option<User>)
    ensures r.Some? ==> r.value in DemoUsers && r.value.email == email
    ensures r.None? <==> forall i :: 0 <= i < |DemoUsers| ==> DemoUsers[i].email != email
  {
    Find(DemoUsers, (u: User) => u.email == email)
  }

  /** The five demo e-mail addresses are the only ones that sign in, each to its own user. */
  lemma KnownEmails(email: string)
    ensures FindUser(email).Some? <==>
      email in {"admin@ricetrade.com", "procurement@ricetrade.com", "sales@ricetrade.com",
                "finance@ricetrade.com", "warehouse@ricetrade.com"}
    ensures FindUser("admin@ricetrade.com") == Some(DemoUsers[0])
    ensures FindUser("warehouse@ricetrade.com") == Some(DemoUsers[4])
  {
    var r := FindUser(email);
    if r.Some? {
      assert r.value in DemoUsers;
    } else {
      assert forall i :: 0 <= i < |DemoUsers| ==> DemoUsers[i].email != email;
      assert DemoUsers[0].email != email && DemoUsers[1].email != email && DemoUsers[2].email != email;
      assert DemoUsers[3].email != email && DemoUsers[4].email != email;
    }
  }

  /** No demo user has the manager role, so no sign-in reaches it. */
  lemma NoSignInIsManager(email: string)
    ensures FindUser(email).Some? ==> FindUser(email).value.role != Manager
  {
  }

  /** The React state of the auth provider. */
  class AuthProvider {
    var user: Option<User>

    constructor ()
      ensures user == None
    {
      user := None;
    }

    /** `isAuthenticated: !!user`. */
    predicate IsAuthenticated()
      reads this
    {
      user.Some?
    }

    predicate HasPermission(permission: string)
      reads this
    {
      Permits(user, permission)
    }

    /** Signs in whoever the e-mail belongs to, whatever the password; an
        unknown e-mail leaves the state alone, signed in or not. */
    method Login(email: string, password: string) returns (ok: bool)
      modifies this
      ensures ok <==> FindUser(email).Some?
      ensures ok ==> user == FindUser(email) && IsAuthenticated()
      ensures !ok ==> user == old(user)
    {
      var found := FindUser(email);
      if found.Some? {
        user := found;
        ok := true;
      } else {
        ok := false;
      }
    }

    method Logout()
      modifies this
      ensures user == None && !IsAuthenticated()
      ensures forall p :: !HasPermission(p)
    {
      user := None;
    }
  }
}
