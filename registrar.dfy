/** The permission cache and gate registrar (`PermissionRegistrar`). The cache
    repository is reduced to the registrar's one slot (key `konekt.acl.cache`):
    None is the Empty state, Some(snapshot) the Populated one. */
module Registrar {
  import opened Wrappers
  import opened Records
  import opened Storage

  /** The gate after `define(name, …)` for every cached permission in order:
      a later definition of a name overwrites an earlier one. */
  function Define(gate: map<string, Permission>, snapshot: seq<CachedPermission>): map<string, Permission>
    decreases |snapshot|
  {
    if snapshot == [] then gate
    else
      var last := snapshot[|snapshot| - 1].permission;
      Define(gate, snapshot[..|snapshot| - 1])[last.name := last]
  }

  /** Position `j` holds the last permission named `name` in the snapshot. */
  predicate LastNamed(snapshot: seq<CachedPermission>, name: string, j: int) {
    && 0 <= j < |snapshot|
    && snapshot[j].permission.name == name
    && forall k :: j < k < |snapshot| ==> snapshot[k].permission.name != name
  }

  /** The gate has an ability for a name exactly when it had one or a cached permission has that name. */
  lemma {:induction false} DefineKeys(gate: map<string, Permission>, snapshot: seq<CachedPermission>, name: string)
    ensures name in Define(gate, snapshot) <==>
      name in gate || exists i :: 0 <= i < |snapshot| && snapshot[i].permission.name == name
    decreases |snapshot|
  {
    if snapshot != [] {
      var n := |snapshot| - 1;
      var init := snapshot[..n];
      DefineKeys(gate, init, name);
      assert forall i :: 0 <= i < n ==> init[i] == snapshot[i];
    }
  }

  /** The ability of a cached name is bound to the last permission of that name. */
  lemma {:induction false} DefineLast(gate: map<string, Permission>, snapshot: seq<CachedPermission>, name: string, j: int)
    requires LastNamed(snapshot, name, j)
    ensures name in Define(gate, snapshot) && Define(gate, snapshot)[name] == snapshot[j].permission
    decreases |snapshot|
  {
    var n := |snapshot| - 1;
    if j < n {
      var init := snapshot[..n];
      assert LastNamed(init, name, j) by {
        assert forall k :: j < k < n ==> init[k] == snapshot[k];
      }
      DefineLast(gate, init, name, j);
    }
  }

  /** A name no cached permission has keeps the ability it had. */
  lemma {:induction false} DefineKeeps(gate: map<string, Permission>, snapshot: seq<CachedPermission>, name: string)
    requires name in gate
    requires forall i :: 0 <= i < |snapshot| ==> snapshot[i].permission.name != name
    ensures name in Define(gate, snapshot) && Define(gate, snapshot)[name] == gate[name]
    decreases |snapshot|
  {
    if snapshot != [] {
      var n := |snapshot| - 1;
      var init := snapshot[..n];
      assert forall i :: 0 <= i < n ==> init[i] == snapshot[i];
      DefineKeeps(gate, init, name);
    }
  }

  /** After registration the gate has an ability for every cached permission name:
      the last permission of that name. Other abilities are kept as they were. */
  lemma DefineAbilities(gate: map<string, Permission>, snapshot: seq<CachedPermission>, name: string)
    ensures name in Define(gate, snapshot) <==>
      name in gate || exists i :: 0 <= i < |snapshot| && snapshot[i].permission.name == name
    ensures forall j :: LastNamed(snapshot, name, j) ==> Define(gate, snapshot)[name] == snapshot[j].permission
    ensures (forall i :: 0 <= i < |snapshot| ==> snapshot[i].permission.name != name) && name in gate ==>
      Define(gate, snapshot)[name] == gate[name]
  {
    DefineKeys(gate, snapshot, name);
    forall j | LastNamed(snapshot, name, j)
      ensures Define(gate, snapshot)[name] == snapshot[j].permission
    {
      DefineLast(gate, snapshot, name, j);
    }
    if (forall i :: 0 <= i < |snapshot| ==> snapshot[i].permission.name != name) && name in gate {
      DefineKeeps(gate, snapshot, name);
    }
  }

  /** Registering the same snapshot twice leaves the gate as registering it once. */
  lemma DefineIdempotent(gate: map<string, Permission>, snapshot: seq<CachedPermission>)
    ensures Define(Define(gate, snapshot), snapshot) == Define(gate, snapshot)
  {
    var once := Define(gate, snapshot);
    var twice := Define(once, snapshot);
    forall name
      ensures name in twice <==> name in once
      ensures name in once ==> twice[name] == once[name]
    {
      DefineAbilities(gate, snapshot, name);
      DefineAbilities(once, snapshot, name);
      if exists i :: 0 <= i < |snapshot| && snapshot[i].permission.name == name {
        var j := LastIndex(snapshot, name);
        assert LastNamed(snapshot, name, j);
      }
    }
  }

  /** The index of the last permission named `name`. */
  function LastIndex(snapshot: seq<CachedPermission>, name: string): (j: int)
    requires exists i :: 0 <= i < |snapshot| && snapshot[i].permission.name == name
    ensures LastNamed(snapshot, name, j)
  {
    if snapshot[|snapshot| - 1].permission.name == name then |snapshot| - 1
    else
      LastIndex(snapshot[..|snapshot| - 1], name)
  }

  const AlertPrefix := "Could not register permissions because "

  /** The alert written when registration fails. */
  function AlertMessage(e: Error): string {
    AlertPrefix + Describe(e)
  }

  class PermissionRegistrar {
    const db: Database
    /** The cached snapshot: None when the cache is Empty. */
    var cache: Option<seq<CachedPermission>>
    /** The abilities defined on the gate, each with the permission its check uses. */
    var gate: map<string, Permission>
    /** The alerts written to the logger. */
    var log: seq<string>

    constructor (db: Database)
      ensures this.db == db && cache == None && gate == map[] && log == []
    {
      this.db := db;
      cache, gate, log := None, map[], [];
    }

    /** What a read through the cache returns in the current state. */
    function View(): Result<seq<CachedPermission>, Error>
      reads this, db
    {
      if cache.Some? then Ok(cache.value)
      else if db.failure.None? then Ok(db.Snapshot())
      else Err(QueryFailed(db.failure.value))
    }

    /** No stale read: a Populated cache holds exactly what the store holds. */
    predicate Coherent()
      reads this, db
    {
      cache.Some? ==> cache.value == db.Snapshot()
    }

    /** The effect of one read through the cache on the cache and the fetch counter. */
    twostate predicate ReadThrough()
      reads this, db
    {
      && db.fetches == old(db.fetches) + (if old(cache).None? then 1 else 0)
      && cache == (if old(cache).Some? then old(cache)
                   else if old(View()).Ok? then Some(old(View()).value)
                   else None)
    }

    /** `getPermissions`: `remember` under the cache key; rebuilds on a miss only. */
    method GetPermissions() returns (r: Result<seq<CachedPermission>, Error>)
      modifies this`cache, db`fetches
      ensures r == old(View())
      ensures ReadThrough()
      ensures old(Coherent()) ==> Coherent() && (r.Ok? ==> r.value == db.Snapshot())
    {
      if cache.Some? {
        return Ok(cache.value);
      }
      r := db.FetchAllWithRoles();
      if r.Ok? {
        cache := Some(r.value);
      }
    }

    /** `forgetCachedPermissions`: back to Empty, whatever the state was. */
    method ForgetCachedPermissions()
      modifies this`cache
      ensures cache == None && Coherent()
    {
      cache := None;
    }

    /** `registerPermissions`: defines one ability per cached permission; a failure to
        build the list becomes `false`, with an alert when `logRegistrationException`
        (the `konekt.acl.log_registration_exception` setting) is on. */
    method RegisterPermissions(logRegistrationException: bool) returns (ok: bool)
      modifies this`cache, this`gate, this`log, db`fetches
      ensures ok <==> old(View()).Ok?
      ensures ok ==> gate == Define(old(gate), old(View()).value) && log == old(log)
      ensures !ok ==> gate == old(gate)
      ensures !ok ==> log == old(log) + (if logRegistrationException then [AlertMessage(old(View()).error)] else [])
      ensures ReadThrough()
      ensures old(Coherent()) ==> Coherent()
    {
      var snapshot := GetPermissions();
      if snapshot.Err? {
        if logRegistrationException {
          log := log + [AlertMessage(snapshot.error)];
        }
        return false;
      }
      var ps := snapshot.value;
      for i := 0 to |ps|
        modifies this`gate
        invariant gate == Define(old(gate), ps[..i])
      {
        assert ps[..i + 1][..i] == ps[..i];
        gate := gate[ps[i].permission.name := ps[i].permission];
      }
      assert ps[..|ps|] == ps;
      return true;
    }
  }
}
