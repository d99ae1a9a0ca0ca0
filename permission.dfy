/** The Permission model: guard defaulting, `create` with its duplicate check and
    `findByName`, both reading the snapshot through the registrar's cache. */
module PermissionModel {
  import opened Wrappers
  import opened Records
  import opened Storage
  import opened Registrar

  /** The attributes a permission is built from; `guard` is `guard_name`, possibly absent. */
  datatype Attributes = Attributes(name: string, guard: Option<string>)

  /** The constructor's `guard_name ?? auth.defaults.guard`. */
  function Construct(a: Attributes, defaultGuard: string): (r: Attributes)
    ensures r.name == a.name && r.guard.Some?
    ensures a.guard.Some? ==> r.guard == a.guard
    ensures a.guard.None? ==> r.guard == Some(defaultGuard)
  {
    Attributes(a.name, Some(a.guard.GetOr(defaultGuard)))
  }

  /** `create` fills in the guard the same way; the constructor that `query()->create`
      then runs keeps it, whatever the default is by then. */
  lemma CreateDefaultsLikeConstructor(a: Attributes, defaultGuard: string, laterDefault: string)
    ensures Construct(Construct(a, defaultGuard), laterDefault) == Construct(a, defaultGuard)
  {
  }

  /** `->where('name', $name)->where('guard_name', $guard)->first()` over a snapshot. */
  function FindIn(snapshot: seq<CachedPermission>, name: string, guard: string): (r: Option<Permission>)
    ensures r.None? <==> forall i :: 0 <= i < |snapshot| ==> !Matches(snapshot[i].permission, name, guard)
    ensures r.Some? ==> Matches(r.value, name, guard)
    ensures r.Some? ==> exists i ::
      && 0 <= i < |snapshot| && snapshot[i].permission == r.value
      && forall j :: 0 <= j < i ==> !Matches(snapshot[j].permission, name, guard)
  {
    if snapshot == [] then None
    else if Matches(snapshot[0].permission, name, guard) then Some(snapshot[0].permission)
    else
      var r := FindIn(snapshot[1..], name, guard);
      assert forall i :: 1 <= i < |snapshot| ==> snapshot[1..][i - 1] == snapshot[i];
      r
  }

  /** The outcome of `findByName` given what the cache read returned. */
  function Lookup(view: Result<seq<CachedPermission>, Error>, name: string, guard: string): (r: Result<Permission, Error>)
    ensures view.Err? ==> r == Err(view.error)
    ensures view.Ok? ==>
      (r.Err? <==> forall i :: 0 <= i < |view.value| ==> !Matches(view.value[i].permission, name, guard))
    ensures view.Ok? && r.Err? ==> r.error == PermissionDoesNotExist(name, guard)
    ensures r.Ok? ==> Matches(r.value, name, guard)
    ensures r.Ok? ==> exists i :: 0 <= i < |view.value| && view.value[i].permission == r.value
  {
    match view
    case Err(e) => Err(e)
    case Ok(snapshot) =>
      match FindIn(snapshot, name, guard)
      case None => Err(PermissionDoesNotExist(name, guard))
      case Some(p) => Ok(p)
  }

  /** `Permission::findByName($name, $guardName)`. */
  method FindByName(reg: PermissionRegistrar, name: string, guard: Option<string>, defaultGuard: string)
    returns (r: Result<Permission, Error>)
    modifies reg`cache, reg.db`fetches
    ensures r == Lookup(old(reg.View()), name, guard.GetOr(defaultGuard))
    ensures reg.ReadThrough()
    ensures old(reg.Coherent()) ==> reg.Coherent()
  {
    var g := guard.GetOr(defaultGuard);
    var snapshot := reg.GetPermissions();
    r := Lookup(snapshot, name, g);
  }

  /** `Permission::create($attributes)`: duplicate check against the cached snapshot,
      insert, and the cache flush the model's save event triggers. */
  method Create(reg: PermissionRegistrar, a: Attributes, defaultGuard: string)
    returns (r: Result<Permission, Error>)
    requires reg.db.Valid()
    modifies reg`cache, reg.db`fetches, reg.db`permissions, reg.db`nextId
    ensures var g := Construct(a, defaultGuard).guard.value;
      match old(reg.View())
      case Err(e) =>
        && r == Err(e) && reg.ReadThrough()
        && reg.db.permissions == old(reg.db.permissions) && reg.db.nextId == old(reg.db.nextId)
      case Ok(snapshot) =>
        if FindIn(snapshot, a.name, g).Some? then
          && r == Err(PermissionAlreadyExists(a.name, g)) && reg.ReadThrough()
          && reg.db.permissions == old(reg.db.permissions) && reg.db.nextId == old(reg.db.nextId)
        else if reg.db.failure.Some? then
          && r == Err(QueryFailed(reg.db.failure.value)) && reg.ReadThrough()
          && reg.db.permissions == old(reg.db.permissions) && reg.db.nextId == old(reg.db.nextId)
        else
          && r == Ok(Permission(old(reg.db.nextId), a.name, g))
          && reg.db.permissions == old(reg.db.permissions) + [r.value]
          && reg.db.nextId == old(reg.db.nextId) + 1
          && (forall q :: q in old(reg.db.permissions) ==> q.id != r.value.id)
          && reg.cache == None
          && reg.db.fetches == old(reg.db.fetches) + (if old(reg.cache).None? then 1 else 0)
    ensures reg.db.Valid()
    ensures old(reg.Coherent()) ==> reg.Coherent()
    ensures old(reg.Coherent()) && Unique(old(reg.db.permissions)) ==> Unique(reg.db.permissions)
  {
    var g := Construct(a, defaultGuard).guard.value;
    var snapshot := reg.GetPermissions();
    if snapshot.Err? {
      return Err(snapshot.error);
    }
    if FindIn(snapshot.value, a.name, g).Some? {
      return Err(PermissionAlreadyExists(a.name, g));
    }
    SnapshotRows(reg.db.permissions, reg.db.edges, reg.db.roleModel);
    r := reg.db.Insert(a.name, g);
    if r.Ok? {
      reg.ForgetCachedPermissions();
    }
  }
}
