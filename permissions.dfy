/**
 * The permission classes of the API: who may reach a view, decided from whether the request
 * is signed in and the user's role, and who may reach an object.
 */
module Permissions {
  import opened Accounts

  /** The requester: nobody signed in, or a signed-in user with an id and a role. */
  datatype Requester = Anonymous | SignedIn(id: nat, role: string)

  /** The object a view asks about: a user account by id, or anything else. */
  datatype Target = UserObject(id: nat) | OtherObject

  /** Signed in with a role in `roles`; the shared shape of every class. */
  predicate RoleIn(r: Requester, roles: set<string>)
  {
    r.SignedIn? && r.role in roles
  }

  predicate IsAdmin(r: Requester) { r.SignedIn? && r.role == "admin" }
  predicate IsManager(r: Requester) { r.SignedIn? && r.role == "manager" }
  predicate IsStaff(r: Requester) { r.SignedIn? && r.role == "staff" }
  predicate IsAccountant(r: Requester) { r.SignedIn? && r.role == "accountant" }
  predicate IsAdminOrManager(r: Requester) { r.SignedIn? && r.role in ["admin", "manager"] }
  predicate IsAdminOrManagerOrStaff(r: Requester) { r.SignedIn? && r.role in ["admin", "manager", "staff"] }
  predicate IsAdminOrManagerOrStaffOrAccountant(r: Requester)
  {
    r.SignedIn? && r.role in ["admin", "manager", "staff", "accountant"]
  }

  /** `IsOwnerOrAdmin.has_object_permission`: admins reach any object, others only their own account. */
  predicate IsOwnerOrAdmin(r: Requester, obj: Target)
  {
    r.SignedIn? && (r.role == "admin" || obj == UserObject(r.id))
  }

  /**
   * Nobody signed out passes any class; each single-role class holds for its one role; the
   * combined classes hold for exactly the listed roles.
   */
  lemma ClassesMeanRoleSets(r: Requester)
    ensures r.Anonymous? ==> !IsAdmin(r) && !IsManager(r) && !IsStaff(r) && !IsAccountant(r) && !IsAdminOrManager(r)
                             && !IsAdminOrManagerOrStaff(r) && !IsAdminOrManagerOrStaffOrAccountant(r)
    ensures IsAdmin(r) == RoleIn(r, {"admin"}) && IsManager(r) == RoleIn(r, {"manager"})
    ensures IsStaff(r) == RoleIn(r, {"staff"}) && IsAccountant(r) == RoleIn(r, {"accountant"})
    ensures IsAdminOrManager(r) == RoleIn(r, {"admin", "manager"})
    ensures IsAdminOrManagerOrStaff(r) == RoleIn(r, {"admin", "manager", "staff"})
    ensures IsAdminOrManagerOrStaffOrAccountant(r) == RoleIn(r, Roles)
  {
  }

  /** The combined classes are nested, and each single role passes the combinations that list it. */
  lemma ClassesNested(r: Requester)
    ensures IsAdminOrManager(r) ==> IsAdminOrManagerOrStaff(r)
    ensures IsAdminOrManagerOrStaff(r) ==> IsAdminOrManagerOrStaffOrAccountant(r)
    ensures IsAdmin(r) || IsManager(r) <==> IsAdminOrManager(r)
    ensures IsAdminOrManagerOrStaff(r) <==> IsAdminOrManager(r) || IsStaff(r)
    ensures IsAdminOrManagerOrStaffOrAccountant(r) <==> IsAdminOrManagerOrStaff(r) || IsAccountant(r)
  {
  }

  /** Admins reach every object, a non-admin exactly its own account, and nobody signed out anything. */
  lemma OwnerOrAdminMeaning(r: Requester, obj: Target)
    ensures r.Anonymous? ==> !IsOwnerOrAdmin(r, obj)
    ensures IsAdmin(r) ==> IsOwnerOrAdmin(r, obj)
    ensures r.SignedIn? && !IsAdmin(r) ==> (IsOwnerOrAdmin(r, obj) <==> obj.UserObject? && obj.id == r.id)
  {
  }

  /** A signed-in user's permissions agree with the role tests of the account. */
  lemma AccountRolesAgree(u: User)
    ensures IsAdmin(SignedIn(u.id, u.role)) == u.IsAdmin()
    ensures IsManager(SignedIn(u.id, u.role)) == u.IsManager()
    ensures IsStaff(SignedIn(u.id, u.role)) == u.IsStaffMember()
    ensures IsAccountant(SignedIn(u.id, u.role)) == u.IsAccountant()
  {
  }
}
