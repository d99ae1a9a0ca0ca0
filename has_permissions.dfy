/** The `HasPermissions` trait: guard resolution over the authentication
    configuration, and granting, syncing and revoking a subject's permissions. */
module HasPermissions {
  import opened Wrappers
  import opened Records
  import opened Storage
  import opened Registrar
  import opened PermissionModel

  /** One entry of `auth.guards`: its key and the user provider it names. */
  datatype Guard = Guard(name: string, provider: string)

  /** `auth.guards` in configuration order, `auth.providers.*.model` and `auth.defaults.guard`. */
  datatype AuthConfig = AuthConfig(guards: seq<Guard>, providerModels: map<string, string>, defaultGuard: string)

  /** A model using the trait: its class, its key, and its `guard_name` attribute if it has one. */
  datatype Subject = Subject(model: string, id: nat, guardName: Option<string>) {
    function Key(): SubjectKey {
      SubjectKey(model, id)
    }
  }

  /** What the grant methods accept: a permission name, a permission model, or a nested list. */
  datatype PermissionRef = ByName(name: string) | ByObject(permission: Permission) | Many(items: seq<PermissionRef>)

  /** A reference that is not a list: what flattening leaves. */
  type Leaf = ref: PermissionRef | !ref.Many? witness ByName("")

  /** PHP truthiness of a string. */
  predicate Truthy(s: string) {
    s != "" && s != "0"
  }

  /** The model class of a guard's provider; None when the configuration has none. */
  function ProviderModel(config: AuthConfig, g: Guard): Option<string> {
    if g.provider in config.providerModels then Some(config.providerModels[g.provider]) else None
  }

  predicate Serves(config: AuthConfig, g: Guard, model: string) {
    ProviderModel(config, g) == Some(model)
  }

  /** The keys of the guards whose provider model is `model`, in configuration order. */
  function GuardsFor(guards: seq<Guard>, config: AuthConfig, model: string): seq<string> {
    if guards == [] then []
    else
      var rest := GuardsFor(guards[1..], config, model);
      if Serves(config, guards[0], model) then [guards[0].name] + rest else rest
  }

  /** A key is returned exactly when its guard serves the model; nothing is returned exactly when
      no guard does; and the first key returned is that of the first guard serving the model. */
  lemma {:induction false} GuardsForSpec(guards: seq<Guard>, config: AuthConfig, model: string)
    ensures var r := GuardsFor(guards, config, model);
      forall n :: n in r <==> exists i :: 0 <= i < |guards| && guards[i].name == n && Serves(config, guards[i], model)
    ensures var r := GuardsFor(guards, config, model);
      r == [] <==> forall i :: 0 <= i < |guards| ==> !Serves(config, guards[i], model)
    ensures var r := GuardsFor(guards, config, model);
      r != [] ==> exists i ::
        && 0 <= i < |guards| && Serves(config, guards[i], model) && r[0] == guards[i].name
        && forall j :: 0 <= j < i ==> !Serves(config, guards[j], model)
  {
    if guards != [] {
      assert forall i :: 1 <= i < |guards| ==> guards[1..][i - 1] == guards[i];
      GuardsForSpec(guards[1..], config, model);
    }
  }

  /** Taking the guards of a model distributes over concatenating configurations: the result
      keeps the configuration's order. */
  lemma {:induction false} GuardsForAppend(a: seq<Guard>, b: seq<Guard>, config: AuthConfig, model: string)
    ensures GuardsFor(a + b, config, model) == GuardsFor(a, config, model) + GuardsFor(b, config, model)
  {
    if a == [] {
      assert a + b == b;
    } else {
      AppendTail(a, b);
      GuardsForAppend(a[1..], b, config, model);
    }
  }

  /** One guard contributes its key exactly when it serves the model: with `GuardsForAppend`,
      the result is the in-order filter of the configuration. */
  lemma GuardsForOne(g: Guard, config: AuthConfig, model: string)
    ensures GuardsFor([g], config, model) == if Serves(config, g, model) then [g.name] else []
  {
    assert [g][1..] == [];
  }

  /** No name occurs twice. */
  predicate Distinct(names: seq<string>) {
    forall i, j :: 0 <= i < j < |names| ==> names[i] != names[j]
  }

  /** Guard keys are distinct (they are the keys of `auth.guards`), and so are the names returned. */
  lemma {:induction false} GuardsForDistinct(guards: seq<Guard>, config: AuthConfig, model: string)
    requires forall i, j :: 0 <= i < j < |guards| ==> guards[i].name != guards[j].name
    ensures Distinct(GuardsFor(guards, config, model))
  {
    if guards != [] {
      var rest := GuardsFor(guards[1..], config, model);
      assert forall i, j :: 0 <= i < j < |guards[1..]| ==> guards[1..][i].name != guards[1..][j].name by {
        forall i, j | 0 <= i < j < |guards[1..]|
          ensures guards[1..][i].name != guards[1..][j].name
        {
          assert guards[1..][i] == guards[i + 1] && guards[1..][j] == guards[j + 1];
        }
      }
      GuardsForDistinct(guards[1..], config, model);
      GuardsForSpec(guards[1..], config, model);
      if Serves(config, guards[0], model) {
        assert guards[0].name !in rest;
        var r := [guards[0].name] + rest;
        assert GuardsFor(guards, config, model) == r;
        forall i, j | 0 <= i < j < |r|
          ensures r[i] != r[j]
        {
          if i == 0 {
            assert r[0] == guards[0].name && r[j] == rest[j - 1] && rest[j - 1] in rest;
          } else {
            assert r[i] == rest[i - 1] && r[j] == rest[j - 1];
          }
        }
      }
    }
  }

  /** The subject carries its own guard. */
  predicate HasOwnGuard(s: Subject) {
    s.guardName.Some? && Truthy(s.guardName.value)
  }

  /** `getGuardNames`. */
  function GuardNames(s: Subject, config: AuthConfig): (r: seq<string>)
    ensures HasOwnGuard(s) ==> r == [s.guardName.value]
    ensures !HasOwnGuard(s) ==> forall n :: n in r <==>
      exists i :: 0 <= i < |config.guards| && config.guards[i].name == n && Serves(config, config.guards[i], s.model)
    ensures !HasOwnGuard(s) ==> r == GuardsFor(config.guards, config, s.model)
  {
    if HasOwnGuard(s) then [s.guardName.value]
    else
      GuardsForSpec(config.guards, config, s.model);
      GuardsFor(config.guards, config, s.model)
  }

  /** `getDefaultGuardName`: the first guard name, unless there is none (or it is falsy). */
  function DefaultGuardName(s: Subject, config: AuthConfig): (r: string)
    ensures r in GuardNames(s, config) || r == config.defaultGuard
    ensures HasOwnGuard(s) ==> r == s.guardName.value
    ensures GuardNames(s, config) == [] ==> r == config.defaultGuard
    ensures GuardNames(s, config) != [] && Truthy(GuardNames(s, config)[0]) ==> r == GuardNames(s, config)[0]
    ensures GuardNames(s, config) != [] && !Truthy(GuardNames(s, config)[0]) ==> r == config.defaultGuard
  {
    var names := GuardNames(s, config);
    if names != [] && Truthy(names[0]) then names[0] else config.defaultGuard
  }

  /** `ensureModelSharesGuard`. */
  function SharesGuard(names: seq<string>, p: Permission): (r: Outcome<Error>)
    ensures r.Pass? <==> p.guard in names
    ensures r.Fail? ==> r.error == GuardDoesNotMatch(p.guard, names)
  {
    if p.guard in names then Pass else Fail(GuardDoesNotMatch(p.guard, names))
  }

  /** `->each(ensureModelSharesGuard)`: the first permission whose guard is not one of the names fails. */
  function CheckGuards(ps: seq<Permission>, names: seq<string>): (r: Outcome<Error>)
    ensures r.Pass? <==> forall i :: 0 <= i < |ps| ==> ps[i].guard in names
    ensures r.Fail? ==> exists i ::
      && 0 <= i < |ps| && ps[i].guard !in names && r.error == GuardDoesNotMatch(ps[i].guard, names)
      && forall j :: 0 <= j < i ==> ps[j].guard in names
  {
    if ps == [] then Pass
    else
      assert forall i :: 1 <= i < |ps| ==> ps[1..][i - 1] == ps[i];
      match SharesGuard(names, ps[0])
      case Fail(e) => Fail(e)
      case Pass => CheckGuards(ps[1..], names)
  }

  /** No nested lists. */
  predicate Flat(refs: seq<PermissionRef>) {
    forall i :: 0 <= i < |refs| ==> !refs[i].Many?
  }

  /** `collect($permissions)->flatten()`. */
  function Flatten(refs: seq<PermissionRef>): seq<Leaf> {
    if refs == [] then []
    else if refs[0].Many? then Flatten(refs[0].items) + Flatten(refs[1..])
    else [refs[0]] + Flatten(refs[1..])
  }

  lemma AppendTail<T>(a: seq<T>, b: seq<T>)
    requires a != []
    ensures (a + b)[0] == a[0] && (a + b)[1..] == a[1..] + b
  {
  }

  lemma AppendAssoc<T>(x: seq<T>, y: seq<T>, z: seq<T>)
    ensures x + (y + z) == (x + y) + z
  {
  }

  lemma UpdateTwice<K, V>(m: map<K, V>, k: K, v1: V, v2: V)
    ensures m[k := v1][k := v2] == m[k := v2]
  {
  }

  /** Flattening distributes over concatenation. */
  lemma {:induction false} FlattenAppend(a: seq<PermissionRef>, b: seq<PermissionRef>)
    ensures Flatten(a + b) == Flatten(a) + Flatten(b)
  {
    if a == [] {
      assert a + b == b;
    } else {
      var head: seq<Leaf> := if a[0].Many? then Flatten(a[0].items) else [a[0]];
      var tail, rest := Flatten(a[1..]), Flatten(b);
      AppendTail(a, b);
      FlattenAppend(a[1..], b);
      AppendAssoc(head, tail, rest);
    }
  }

  /** Flattening leaves an already flat list as it is. */
  lemma {:induction false} FlattenFlat(refs: seq<PermissionRef>)
    requires Flat(refs)
    ensures Flatten(refs) == refs
  {
    if refs != [] {
      FlattenFlat(refs[1..]);
    }
  }

  /** A nested list is the same as its items in its place: `give(a, [b, c])` is `give(a, b, c)`. */
  lemma FlattenNested(xs: seq<PermissionRef>, ys: seq<PermissionRef>, zs: seq<PermissionRef>)
    ensures Flatten(xs + [Many(ys)] + zs) == Flatten(xs + ys + zs)
  {
    var fx, fy, fz := Flatten(xs), Flatten(ys), Flatten(zs);
    assert Flatten([Many(ys)]) == fy by {
      assert [Many(ys)][0] == Many(ys) && [Many(ys)][1..] == [];
      assert Flatten([Many(ys)]) == fy + Flatten([]);
    }
    FlattenAppend(xs + [Many(ys)], zs);
    FlattenAppend(xs, [Many(ys)]);
    assert Flatten(xs + [Many(ys)] + zs) == fx + fy + fz;
    FlattenAppend(xs + ys, zs);
    FlattenAppend(xs, ys);
    assert Flatten(xs + ys + zs) == fx + fy + fz;
  }

  /** `getStoredPermission` on a name or a model: names are looked up under the subject's default guard. */
  function ResolveOne(ref: Leaf, view: Result<seq<CachedPermission>, Error>, guard: string): Result<Permission, Error>
  {
    match ref
    case ByName(n) => Lookup(view, n, guard)
    case ByObject(p) => Ok(p)
  }

  /** `->map(getStoredPermission)`: the first reference that cannot be resolved fails. */
  function Resolve(leaves: seq<Leaf>, view: Result<seq<CachedPermission>, Error>, guard: string):
    Result<seq<Permission>, Error>
    decreases |leaves|
  {
    if leaves == [] then Ok([])
    else
      var n := |leaves| - 1;
      match Resolve(leaves[..n], view, guard)
      case Err(e) => Err(e)
      case Ok(ps) =>
        match ResolveOne(leaves[n], view, guard)
        case Err(e) => Err(e)
        case Ok(p) => Ok(ps + [p])
  }

  /** Resolution succeeds exactly when every reference resolves, and then yields one permission
      per reference; otherwise it fails with the error of the first reference that does not. */
  lemma {:induction false} ResolveSpec(leaves: seq<Leaf>, view: Result<seq<CachedPermission>, Error>, guard: string)
    ensures Resolve(leaves, view, guard).Ok? <==>
      forall i :: 0 <= i < |leaves| ==> ResolveOne(leaves[i], view, guard).Ok?
    ensures Resolve(leaves, view, guard).Ok? ==>
      var ps := Resolve(leaves, view, guard).value;
      |ps| == |leaves| && forall i :: 0 <= i < |leaves| ==> ps[i] == ResolveOne(leaves[i], view, guard).value
    ensures Resolve(leaves, view, guard).Err? ==> exists i ::
      && 0 <= i < |leaves| && ResolveOne(leaves[i], view, guard).Err?
      && Resolve(leaves, view, guard).error == ResolveOne(leaves[i], view, guard).error
      && forall j :: 0 <= j < i ==> ResolveOne(leaves[j], view, guard).Ok?
    decreases |leaves|
  {
    if leaves != [] {
      var n := |leaves| - 1;
      assert forall i :: 0 <= i < n ==> leaves[..n][i] == leaves[i];
      ResolveSpec(leaves[..n], view, guard);
    }
  }

  /** Once a prefix fails to resolve, the whole list fails with the same error. */
  lemma {:induction false} ResolveKeepsError(leaves: seq<Leaf>, n: nat, view: Result<seq<CachedPermission>, Error>, guard: string)
    requires n <= |leaves| && Resolve(leaves[..n], view, guard).Err?
    ensures Resolve(leaves, view, guard) == Resolve(leaves[..n], view, guard)
    decreases |leaves|
  {
    if n < |leaves| {
      var m := |leaves| - 1;
      assert leaves[..m][..n] == leaves[..n];
      ResolveKeepsError(leaves[..m], n, view, guard);
    } else {
      assert leaves[..n] == leaves;
    }
  }

  /** The validation `givePermissionTo` runs before it writes: every reference is resolved
      first, and only then is every guard checked. */
  function Validate(leaves: seq<Leaf>, view: Result<seq<CachedPermission>, Error>, s: Subject, config: AuthConfig):
    (r: Result<seq<Permission>, Error>)
    ensures var res := Resolve(leaves, view, DefaultGuardName(s, config));
      && (res.Err? ==> r == Err(res.error))
      && (res.Ok? ==> (r.Ok? <==> forall i :: 0 <= i < |res.value| ==> res.value[i].guard in GuardNames(s, config)))
      && (res.Ok? && r.Err? ==> r.error.GuardDoesNotMatch?)
      && (r.Ok? ==> r == res)
  {
    match Resolve(leaves, view, DefaultGuardName(s, config))
    case Err(e) => Err(e)
    case Ok(ps) =>
      match CheckGuards(ps, GuardNames(s, config))
      case Fail(e) => Err(e)
      case Pass => Ok(ps)
  }

  /** The permission ids saved as pivot rows. */
  function Ids(ps: seq<Permission>): (r: seq<nat>)
    ensures |r| == |ps|
  {
    seq(|ps|, i requires 0 <= i < |ps| => ps[i].id)
  }

  /** `getStoredPermission` for a name or a permission model. */
  method GetStoredPermission(reg: PermissionRegistrar, s: Subject, ref: Leaf, config: AuthConfig)
    returns (r: Result<Permission, Error>)
    modifies reg`cache, reg.db`fetches
    ensures r == ResolveOne(ref, old(reg.View()), DefaultGuardName(s, config))
    ensures ref.ByName? ==> reg.ReadThrough()
    ensures ref.ByObject? ==> reg.cache == old(reg.cache) && reg.db.fetches == old(reg.db.fetches)
  {
    match ref
    case ByName(n) =>
      r := FindByName(reg, n, Some(DefaultGuardName(s, config)), config.defaultGuard);
    case ByObject(p) =>
      r := Ok(p);
  }

  /** The permissions `givePermissionTo` is about to save: flatten, resolve each, check each guard. */
  method CollectPermissions(reg: PermissionRegistrar, s: Subject, refs: seq<PermissionRef>, config: AuthConfig)
    returns (r: Result<seq<Permission>, Error>)
    modifies reg`cache, reg.db`fetches
    ensures r == Validate(Flatten(refs), old(reg.View()), s, config)
    ensures reg.View() == old(reg.View())
    ensures old(reg.cache).Some? ==> reg.cache == old(reg.cache) && reg.db.fetches == old(reg.db.fetches)
    ensures reg.db.fetches <= old(reg.db.fetches) + 1
    ensures old(reg.Coherent()) ==> reg.Coherent()
  {
    var leaves := Flatten(refs);
    ghost var view := reg.View();
    var guard := DefaultGuardName(s, config);
    var resolved: seq<Permission> := [];
    for i := 0 to |leaves|
      invariant Resolve(leaves[..i], view, guard) == Ok(resolved)
      invariant reg.View() == view
      invariant old(reg.cache).Some? ==> reg.cache == old(reg.cache) && reg.db.fetches == old(reg.db.fetches)
      invariant reg.cache.None? ==> reg.db.fetches == old(reg.db.fetches)
      invariant reg.db.fetches <= old(reg.db.fetches) + 1
      invariant old(reg.Coherent()) ==> reg.Coherent()
    {
      assert leaves[..i + 1][..i] == leaves[..i];
      var p := GetStoredPermission(reg, s, leaves[i], config);
      if p.Err? {
        assert Resolve(leaves[..i + 1], view, guard) == Err(p.error);
        ResolveKeepsError(leaves, i + 1, view, guard);
        return Err(p.error);
      }
      resolved := resolved + [p.value];
    }
    assert leaves[..|leaves|] == leaves;
    match CheckGuards(resolved, GuardNames(s, config))
    case Fail(e) =>
      return Err(e);
    case Pass =>
      return Ok(resolved);
  }

  /** `givePermissionTo(...$permissions)`. */
  method GivePermissionTo(reg: PermissionRegistrar, s: Subject, refs: seq<PermissionRef>, config: AuthConfig)
    returns (r: Outcome<Error>)
    modifies reg`cache, reg.db`fetches, reg.db`edges
    ensures var v := Validate(Flatten(refs), old(reg.View()), s, config);
      && (v.Err? ==> r == Fail(v.error) && reg.db.edges == old(reg.db.edges))
      && (v.Ok? && v.value == [] ==> r == Pass && reg.db.edges == old(reg.db.edges) && reg.cache == None)
      && (v.Ok? && v.value != [] && reg.db.failure.Some? ==>
            r == Fail(QueryFailed(reg.db.failure.value)) && reg.db.edges == old(reg.db.edges))
      && (v.Ok? && v.value != [] && reg.db.failure.None? ==>
            && r == Pass
            && reg.db.edges == old(reg.db.edges)[s.Key() := old(reg.db.EdgesOf(s.Key())) + Ids(v.value)]
            && reg.cache == None)
    ensures r.Fail? && old(reg.cache).Some? ==> reg.cache == old(reg.cache)
    ensures reg.db.fetches <= old(reg.db.fetches) + 1
    ensures old(reg.cache).Some? ==> reg.db.fetches == old(reg.db.fetches)
    ensures old(reg.Coherent()) ==> reg.Coherent()
  {
    var ps := CollectPermissions(reg, s, refs, config);
    if ps.Err? {
      return Fail(ps.error);
    }
    r := reg.db.Attach(s.Key(), Ids(ps.value));
    if r.Pass? {
      reg.ForgetCachedPermissions();
    }
  }

  /** `syncPermissions(...$permissions)`: detach every permission, then give the new ones.
      The detach is not undone when the grant fails. */
  method SyncPermissions(reg: PermissionRegistrar, s: Subject, refs: seq<PermissionRef>, config: AuthConfig)
    returns (r: Outcome<Error>)
    modifies reg`cache, reg.db`fetches, reg.db`edges
    ensures reg.db.failure.Some? ==>
      && r == Fail(QueryFailed(reg.db.failure.value))
      && reg.db.edges == old(reg.db.edges) && reg.cache == old(reg.cache) && reg.db.fetches == old(reg.db.fetches)
    ensures reg.db.failure.None? ==>
      var view := if old(reg.cache).Some? then Ok(old(reg.cache).value)
                  else Ok(SnapshotOf(reg.db.permissions, old(reg.db.edges)[s.Key() := []], reg.db.roleModel));
      var v := Validate(Flatten(refs), view, s, config);
      && (v.Ok? ==> r == Pass && reg.db.edges == old(reg.db.edges)[s.Key() := Ids(v.value)] && reg.cache == None)
      && (v.Err? ==> r == Fail(v.error) && reg.db.edges == old(reg.db.edges)[s.Key() := []])
      && (v.Err? && old(reg.cache).Some? ==> reg.cache == old(reg.cache))
  {
    var d := reg.db.DetachAll(s.Key());
    if d.Fail? {
      return d;
    }
    FlattenNested([], refs, []);
    assert [] + [Many(refs)] + [] == [Many(refs)] && [] + refs + [] == refs;
    ghost var v := Validate(Flatten(refs), reg.View(), s, config);
    r := GivePermissionTo(reg, s, [Many(refs)], config);
    if v.Ok? && v.value != [] {
      assert [] + Ids(v.value) == Ids(v.value);
      UpdateTwice(old(reg.db.edges), s.Key(), [], Ids(v.value));
    }
  }

  /** `syncPermissions` as its callers are promised it: every new permission is resolved
      and guard-checked before anything is detached, so a failing sync writes nothing and
      the cache never outlives a write. */
  method SyncPermissionsAtomic(reg: PermissionRegistrar, s: Subject, refs: seq<PermissionRef>, config: AuthConfig)
    returns (r: Outcome<Error>)
    modifies reg`cache, reg.db`fetches, reg.db`edges
    ensures var v := Validate(Flatten(refs), old(reg.View()), s, config);
      && (v.Err? ==> r == Fail(v.error) && reg.db.edges == old(reg.db.edges))
      && (v.Ok? && reg.db.failure.Some? ==>
            r == Fail(QueryFailed(reg.db.failure.value)) && reg.db.edges == old(reg.db.edges))
      && (v.Ok? && reg.db.failure.None? ==>
            r == Pass && reg.db.edges == old(reg.db.edges)[s.Key() := Ids(v.value)] && reg.cache == None)
    ensures r.Fail? && old(reg.cache).Some? ==> reg.cache == old(reg.cache)
    ensures old(reg.Coherent()) ==> reg.Coherent()
  {
    var ps := CollectPermissions(reg, s, refs, config);
    if ps.Err? {
      return Fail(ps.error);
    }
    r := reg.db.DetachAll(s.Key());
    if r.Fail? {
      return;
    }
    assert reg.db.EdgesOf(s.Key()) == [];
    r := reg.db.Attach(s.Key(), Ids(ps.value));
    if ps.value != [] {
      assert [] + Ids(ps.value) == Ids(ps.value);
      UpdateTwice(old(reg.db.edges), s.Key(), [], Ids(ps.value));
    }
    assert reg.db.edges == old(reg.db.edges)[s.Key() := Ids(ps.value)];
    reg.ForgetCachedPermissions();
  }

  /** `revokePermissionTo($permission)`: resolve, detach that permission's rows, flush the cache. */
  method RevokePermissionTo(reg: PermissionRegistrar, s: Subject, ref: Leaf, config: AuthConfig)
    returns (r: Outcome<Error>)
    modifies reg`cache, reg.db`fetches, reg.db`edges
    ensures var p := ResolveOne(ref, old(reg.View()), DefaultGuardName(s, config));
      && (p.Err? ==> r == Fail(p.error) && reg.db.edges == old(reg.db.edges))
      && (p.Ok? && reg.db.failure.Some? ==>
            r == Fail(QueryFailed(reg.db.failure.value)) && reg.db.edges == old(reg.db.edges))
      && (p.Ok? && reg.db.failure.None? ==>
            && r == Pass
            && reg.db.edges == old(reg.db.edges)[s.Key() := Without(old(reg.db.EdgesOf(s.Key())), p.value.id)]
            && reg.cache == None)
    ensures r.Fail? && old(reg.cache).Some? ==> reg.cache == old(reg.cache)
    ensures reg.db.fetches <= old(reg.db.fetches) + 1
    ensures old(reg.cache).Some? ==> reg.db.fetches == old(reg.db.fetches)
    ensures old(reg.Coherent()) ==> reg.Coherent()
  {
    var p := GetStoredPermission(reg, s, ref, config);
    if p.Err? {
      return Fail(p.error);
    }
    r := reg.db.Detach(s.Key(), p.value.id);
    if r.Pass? {
      reg.ForgetCachedPermissions();
    }
  }
}
