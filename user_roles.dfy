/** The `useUserRole` hook: the signed-in user's roles from `user_roles`, the loading
    flag it reports, and the role predicates derived from them. */
module UserRoles {
  import opened Wrappers

  /** `AppRole`; the `user_roles.role` column has this enumerated type, so every row
      holds one of the three. */
  datatype AppRole = Admin | Doctor | Patient

  datatype RoleRow = RoleRow(role: AppRole)

  /** The reply of the `user_roles` select for the user. */
  datatype RolesReply = RoleRows(rows: seq<RoleRow>) | RolesError

  /** `data.map(r => r.role)`. */
  function RolesOf(rows: seq<RoleRow>): (roles: seq<AppRole>)
    ensures |roles| == |rows|
    ensures forall k :: 0 <= k < |rows| ==> roles[k] == rows[k].role
  {
    if rows == [] then [] else [rows[0].role] + RolesOf(rows[1..])
  }

  /** A role is among the fetched ones iff some row has it. */
  lemma {:induction false} RolesOfMembers(rows: seq<RoleRow>, role: AppRole)
    ensures role in RolesOf(rows) <==> exists k :: 0 <= k < |rows| && rows[k].role == role
  {
    if rows != [] {
      RolesOfMembers(rows[1..], role);
      assert RolesOf(rows) == [rows[0].role] + RolesOf(rows[1..]);
      if role in RolesOf(rows[1..]) {
        var k :| 0 <= k < |rows[1..]| && rows[1..][k].role == role;
        assert rows[k + 1].role == role;
      }
      if exists k :: 0 <= k < |rows| && rows[k].role == role {
        var k :| 0 <= k < |rows| && rows[k].role == role;
        if k > 0 {
          assert rows[1..][k - 1].role == role;
        }
      }
    }
  }

  class RoleState {
    var roles: seq<AppRole>
    var loading: bool

    /** `useState<AppRole[]>([])` and `useState(true)`. */
    constructor ()
      ensures roles == [] && loading
    {
      roles := [];
      loading := true;
    }

    /** The effect run when the user or the auth loading flag changes, with the reply of
        the select, when one is made, as an input. Nothing changes while auth is still
        loading; without a user the roles are cleared; a failed select keeps the old
        roles. */
    method Refresh(authLoading: bool, user: Option<string>, reply: RolesReply)
      modifies this
      ensures authLoading ==> roles == old(roles) && loading == old(loading)
      ensures !authLoading && user.None? ==> roles == [] && !loading
      ensures !authLoading && user.Some? && reply.RoleRows? ==> roles == RolesOf(reply.rows) && !loading
      ensures !authLoading && user.Some? && reply.RolesError? ==> roles == old(roles) && !loading
    {
      if authLoading {
        return;
      }
      if user.None? {
        roles := [];
        loading := false;
        return;
      }
      if reply.RoleRows? {
        roles := RolesOf(reply.rows);
      }
      loading := false;
    }

    /** `roles.includes(role)`. */
    function HasRole(role: AppRole): (has: bool)
      reads this
      ensures has <==> exists k :: 0 <= k < |roles| && roles[k] == role
    {
      role in roles
    }

    function IsAdmin(): (admin: bool)
      reads this
      ensures admin <==> Admin in roles
    {
      HasRole(Admin)
    }

    function IsDoctor(): (doctor: bool)
      reads this
      ensures doctor <==> Doctor in roles
    {
      HasRole(Doctor)
    }

    function IsPatient(): (patient: bool)
      reads this
      ensures patient <==> Patient in roles
    {
      HasRole(Patient)
    }

    /** `loading || authLoading`. */
    function ReportedLoading(authLoading: bool): (b: bool)
      reads this
      ensures authLoading ==> b
      ensures !authLoading ==> b == loading
    {
      loading || authLoading
    }
  }
}
