/** The record types shared by the dashboard: a user of the directory and its role category. */
module Types {

  datatype Option<T> = None | Some(value: T)

  /** The six role categories (`UserRole`), one of which every user carries. */
  datatype UserRole = Admin | Editor | Viewer | Guest | Owner | Inactive

  /** The role as it is spelt in the data and in the user interface. */
  function RoleName(r: UserRole): string
  {
    match r
    case Admin => "admin"
    case Editor => "editor"
    case Viewer => "viewer"
    case Guest => "guest"
    case Owner => "owner"
    case Inactive => "inactive"
  }

  /** `ALL_ROLES` of the dashboard and `ROLES` of the filter badges: the same six roles in the same order. */
  const AllRoles: seq<UserRole> := [Admin, Editor, Viewer, Guest, Owner, Inactive]

  /** A user of the directory. Immutable once loaded from the mock collection. */
  datatype User = User(
    id: string,
    name: string,
    surname: string,
    role: string,
    team: string,
    email: string,
    userRole: UserRole,
    details: string)

  /** Every role occurs in `AllRoles`, at exactly one position. */
  lemma AllRolesListsEachRoleOnce(r: UserRole)
    ensures r in AllRoles
    ensures forall i, j :: 0 <= i < j < |AllRoles| ==> AllRoles[i] != AllRoles[j]
  {
  }
}
