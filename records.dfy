/** The records the access-control tables hold, and the package's exceptions. */
module Records {

  /** A row of the permissions table. */
  datatype Permission = Permission(id: nat, name: string, guard: string)

  /** A permission as the registrar caches it: the row, with the ids of the roles
      that hold it (the eager-loaded `roles` relation). */
  datatype CachedPermission = CachedPermission(permission: Permission, roles: set<nat>)

  /** The polymorphic key of a subject (a role or a user-like model) in the pivot tables. */
  datatype SubjectKey = SubjectKey(model: string, id: nat)

  /** The exceptions of the core; `QueryFailed` stands for any storage error. */
  datatype Error =
    | PermissionDoesNotExist(name: string, guard: string)
    | PermissionAlreadyExists(name: string, guard: string)
    | GuardDoesNotMatch(given: string, expected: seq<string>)
    | QueryFailed(message: string)

  /** The `where('name', …)->where('guard_name', …)` filter. */
  predicate Matches(p: Permission, name: string, guard: string) {
    p.name == name && p.guard == guard
  }

  /** No two rows share a (name, guard) pair. */
  predicate Unique(ps: seq<Permission>) {
    forall i, j :: 0 <= i < j < |ps| ==> !Matches(ps[j], ps[i].name, ps[i].guard)
  }

  /** The text an exception carries. */
  function Describe(e: Error): string {
    match e
    case PermissionDoesNotExist(_, _) => "PermissionDoesNotExist"
    case PermissionAlreadyExists(_, _) => "PermissionAlreadyExists"
    case GuardDoesNotMatch(_, _) => "GuardDoesNotMatch"
    case QueryFailed(m) => m
  }
}
