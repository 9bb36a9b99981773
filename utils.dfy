/** The role-dependent wording of the panel (`getRoleTerminology`). */
module Utils {
  import opened Wrappers
  import opened Strings

  datatype Terminology = Terminology(
    singular: string,
    plural: string,
    searchPlaceholder: string,
    userSingular: string,
    userPlural: string)

  const AcademyTerms := Terminology("Course", "Courses", "Search by Courses", "Student", "Students")
  const GymTerms := Terminology("Program", "Programs", "Search by Programs", "Member", "Members")
  const TurfTerms := Terminology("Turf", "Turfs", "Search by Turfs", "Player", "Players")

  /**
   * `getRoleTerminology(role)`: `None` is a null or undefined role. A missing or
   * empty role reads as "academy"; the role is compared after lowercasing.
   */
  function RoleTerminology(role: Option<string>): (t: Terminology)
    ensures t == AcademyTerms || t == GymTerms || t == TurfTerms
    ensures role.None? ==> t == AcademyTerms
  {
    var key := Lower(if role.None? || role.value == [] then "academy" else role.value);
    if key == "gym" then GymTerms
    else if key == "turf" then TurfTerms
    else AcademyTerms
  }

  /** Gym and turf roles get their own wording; the test ignores letter case. */
  lemma GymAndTurf(role: string)
    ensures Lower(role) == "gym" ==> RoleTerminology(Some(role)) == GymTerms
    ensures Lower(role) == "turf" ==> RoleTerminology(Some(role)) == TurfTerms
  {
    if role == [] {
      assert Lower(role) == [];
    }
  }

  /** Any other role, known or not, gets the academy wording. */
  lemma OtherRolesAreAcademy(role: string)
    requires Lower(role) != "gym" && Lower(role) != "turf"
    ensures RoleTerminology(Some(role)) == AcademyTerms
  {
    if role == [] {
      assert Lower("academy") == "academy";
    }
  }

  /** Matching is case-insensitive: a role and its lowercase form get the same wording. */
  lemma RoleCaseInsensitive(role: string)
    ensures RoleTerminology(Some(role)) == RoleTerminology(Some(Lower(role)))
  {
    var l := Lower(role);
    assert Lower(l) == l;
    if role == [] {
      assert l == [];
    }
  }
}
