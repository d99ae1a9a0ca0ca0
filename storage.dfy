/** An in-memory stand-in for the database the package's Eloquent models use:
    the permissions table, the pivot rows linking subjects to permissions, and
    the one query the registrar issues to rebuild its cache. */
module Storage {
  import opened Wrappers
  import opened Records

  /** The ids of the roles holding permission `pid`: the subjects of the role
      model whose pivot rows name it. */
  function RolesOf(pid: nat, edges: map<SubjectKey, seq<nat>>, roleModel: string): (r: set<nat>)
    ensures forall k :: k in edges && k.model == roleModel && pid in edges[k] ==> k.id in r
    ensures forall rid :: rid in r ==>
      SubjectKey(roleModel, rid) in edges && pid in edges[SubjectKey(roleModel, rid)]
  {
    set k | k in edges && k.model == roleModel && pid in edges[k] :: k.id
  }

  /** "All permissions with roles": every row, in table order, with its roles. */
  function SnapshotOf(ps: seq<Permission>, edges: map<SubjectKey, seq<nat>>, roleModel: string):
    (r: seq<CachedPermission>)
  {
    seq(|ps|, i requires 0 <= i < |ps| => CachedPermission(ps[i], RolesOf(ps[i].id, edges, roleModel)))
  }

  /** The permission rows of a snapshot. */
  function Rows(snapshot: seq<CachedPermission>): seq<Permission> {
    seq(|snapshot|, i requires 0 <= i < |snapshot| => snapshot[i].permission)
  }

  /** A snapshot holds exactly the rows of the table, in table order. */
  lemma SnapshotRows(ps: seq<Permission>, edges: map<SubjectKey, seq<nat>>, roleModel: string)
    ensures Rows(SnapshotOf(ps, edges, roleModel)) == ps
  {
  }

  /** Pivot rows of subjects that are not roles do not reach the snapshot: there
      is nothing for a grant to a user to make stale. */
  lemma SnapshotIgnoresNonRoleEdges(ps: seq<Permission>, edges: map<SubjectKey, seq<nat>>,
                                    roleModel: string, k: SubjectKey, rows: seq<nat>)
    requires k.model != roleModel
    ensures SnapshotOf(ps, edges[k := rows], roleModel) == SnapshotOf(ps, edges, roleModel)
  {
    forall i | 0 <= i < |ps|
      ensures RolesOf(ps[i].id, edges[k := rows], roleModel) == RolesOf(ps[i].id, edges, roleModel)
    {
    }
  }

  /** `detach($permission)`: the pivot rows that remain once every row naming `id` is deleted. */
  function Without(rows: seq<nat>, id: nat): (r: seq<nat>)
    ensures id !in r
    ensures forall x :: x != id ==> multiset(r)[x] == multiset(rows)[x]
    ensures id !in rows ==> r == rows
  {
    if rows == [] then []
    else
      assert rows == [rows[0]] + rows[1..];
      if rows[0] == id then Without(rows[1..], id)
      else [rows[0]] + Without(rows[1..], id)
  }

  class Database {
    /** The class name of the role model (`RoleProxy::modelClass()`). */
    const roleModel: string
    /** The permissions table, in id order. */
    var permissions: seq<Permission>
    var nextId: nat
    /** The permission ids each subject's pivot rows name, in insertion order. */
    var edges: map<SubjectKey, seq<nat>>
    /** Some(message) when the tables cannot be queried: every query fails with it. */
    var failure: Option<string>
    /** How many times the "all permissions with roles" query has run. */
    var fetches: nat

    constructor (roleModel: string)
      ensures this.roleModel == roleModel
      ensures permissions == [] && nextId == 1 && edges == map[] && failure == None && fetches == 0
      ensures Valid()
    {
      this.roleModel := roleModel;
      permissions, nextId, edges, failure, fetches := [], 1, map[], None, 0;
    }

    /** The auto-increment key: rows are in increasing id order, every id below `nextId`. */
    predicate Valid()
      reads this
    {
      && (forall i :: 0 <= i < |permissions| ==> permissions[i].id < nextId)
      && (forall i, j :: 0 <= i < j < |permissions| ==> permissions[i].id < permissions[j].id)
    }

    /** What the rebuild query would load now. */
    function Snapshot(): seq<CachedPermission>
      reads this
    {
      SnapshotOf(permissions, edges, roleModel)
    }

    /** The permission ids of a subject's pivot rows. */
    function EdgesOf(k: SubjectKey): seq<nat>
      reads this
    {
      if k in edges then edges[k] else []
    }

    /** `PermissionProxy::with('roles')->get()`. */
    method FetchAllWithRoles() returns (r: Result<seq<CachedPermission>, Error>)
      modifies this`fetches
      ensures fetches == old(fetches) + 1
      ensures r == if failure.None? then Ok(Snapshot()) else Err(QueryFailed(failure.value))
    {
      fetches := fetches + 1;
      if failure.Some? {
        return Err(QueryFailed(failure.value));
      }
      return Ok(Snapshot());
    }

    /** `query()->create($attributes)`: inserts one row under a fresh id. */
    method Insert(name: string, guard: string) returns (r: Result<Permission, Error>)
      requires Valid()
      modifies this`permissions, this`nextId
      ensures Valid()
      ensures failure.Some? ==>
        r == Err(QueryFailed(failure.value)) && permissions == old(permissions) && nextId == old(nextId)
      ensures failure.None? ==>
        && r == Ok(Permission(old(nextId), name, guard))
        && permissions == old(permissions) + [r.value]
        && nextId == old(nextId) + 1
        && forall q :: q in old(permissions) ==> q.id != r.value.id
    {
      if failure.Some? {
        return Err(QueryFailed(failure.value));
      }
      var p := Permission(nextId, name, guard);
      permissions := permissions + [p];
      nextId := nextId + 1;
      return Ok(p);
    }

    /** `permissions()->saveMany($permissions)`: one pivot row per id, after the existing ones.
        Saving no models issues no query, so it cannot fail. */
    method Attach(k: SubjectKey, ids: seq<nat>) returns (r: Outcome<Error>)
      modifies this`edges
      ensures ids == [] ==> r == Pass && edges == old(edges)
      ensures ids != [] && failure.Some? ==> r == Fail(QueryFailed(failure.value)) && edges == old(edges)
      ensures ids != [] && failure.None? ==> r == Pass && edges == old(edges)[k := old(EdgesOf(k)) + ids]
    {
      if ids == [] {
        return Pass;
      }
      if failure.Some? {
        return Fail(QueryFailed(failure.value));
      }
      edges := edges[k := EdgesOf(k) + ids];
      return Pass;
    }

    /** `permissions()->detach($permission)`. */
    method Detach(k: SubjectKey, id: nat) returns (r: Outcome<Error>)
      modifies this`edges
      ensures failure.Some? ==> r == Fail(QueryFailed(failure.value)) && edges == old(edges)
      ensures failure.None? ==> r == Pass && edges == old(edges)[k := Without(old(EdgesOf(k)), id)]
    {
      if failure.Some? {
        return Fail(QueryFailed(failure.value));
      }
      edges := edges[k := Without(EdgesOf(k), id)];
      return Pass;
    }

    /** `permissions()->detach()`: deletes every pivot row of the subject. */
    method DetachAll(k: SubjectKey) returns (r: Outcome<Error>)
      modifies this`edges
      ensures failure.Some? ==> r == Fail(QueryFailed(failure.value)) && edges == old(edges)
      ensures failure.None? ==> r == Pass && edges == old(edges)[k := []]
    {
      if failure.Some? {
        return Fail(QueryFailed(failure.value));
      }
      edges := edges[k := []];
      return Pass;
    }
  }
}
