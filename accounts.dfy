/**
 * The user account: its display name, the role tests, and the save that makes every
 * superuser an administrator.
 */
module Accounts {
  import opened Text

  const Roles: set<string> := {"admin", "manager", "staff", "accountant"}

  /** A row of the `users` table, as far as names and roles go. */
  class User {
    const id: nat
    var username: string
    var firstName: string
    var lastName: string
    var role: string
    var isSuperuser: bool

    constructor (id: nat, username: string, firstName: string, lastName: string, role: string, isSuperuser: bool)
      ensures this.id == id && this.username == username && this.firstName == firstName
      ensures this.lastName == lastName && this.role == role && this.isSuperuser == isSuperuser
    {
      this.id := id;
      this.username := username;
      this.firstName := firstName;
      this.lastName := lastName;
      this.role := role;
      this.isSuperuser := isSuperuser;
    }

    /** `full_name`: "first last" without surrounding whitespace, or the username when that is empty. */
    function FullName(): (r: string)
      reads this
      ensures Blank(firstName + " " + lastName) ==> r == username
      ensures !Blank(firstName + " " + lastName) ==> r == Trim(firstName + " " + lastName) && r != ""
    {
      TrimBlank(firstName + " " + lastName);
      var joined := Trim(firstName + " " + lastName);
      if joined != "" then joined else username
    }

    predicate IsAdmin() reads this { role == "admin" }
    predicate IsManager() reads this { role == "manager" }
    predicate IsStaffMember() reads this { role == "staff" }
    predicate IsAccountant() reads this { role == "accountant" }

    /** `save`: a superuser whose role is not admin becomes admin; nobody else's role changes. */
    method Save()
      modifies this
      ensures role == if isSuperuser then "admin" else old(role)
      ensures username == old(username) && firstName == old(firstName) && lastName == old(lastName)
      ensures isSuperuser == old(isSuperuser)
      ensures isSuperuser ==> IsAdmin() && !IsManager() && !IsStaffMember() && !IsAccountant()
    {
      if isSuperuser && role != "admin" {
        role := "admin";
      }
    }
  }

  /** With no name parts the full name is the username. */
  lemma FullNameWithoutNames(u: User)
    requires u.firstName == "" && u.lastName == ""
    ensures u.FullName() == u.username
  {
    assert Blank(u.firstName + " " + u.lastName);
  }

  /** Each role satisfies exactly one of the four role tests, and any other role none. */
  lemma RoleTestsExclusive(u: User)
    ensures u.role in Roles <==> u.IsAdmin() || u.IsManager() || u.IsStaffMember() || u.IsAccountant()
    ensures u.IsAdmin() ==> !u.IsManager() && !u.IsStaffMember() && !u.IsAccountant()
    ensures u.IsManager() ==> !u.IsStaffMember() && !u.IsAccountant()
    ensures u.IsStaffMember() ==> !u.IsAccountant()
  {
  }
}
