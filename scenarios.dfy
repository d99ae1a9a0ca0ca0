/** Client methods that replay the package's cache and logging tests against the
    contracts alone: each `assert` is a query count or outcome the tests check. */
module CacheScenarios {
  import opened Wrappers
  import opened Records
  import opened Storage
  import opened Registrar
  import opened PermissionModel
  import opened HasPermissions

  const RoleModel := "Role"
  const UserModel := "User"

  /** Two guards served by the user model, `web` being the default. */
  function TestConfig(): AuthConfig {
    AuthConfig([Guard("web", "users"), Guard("api", "users")], map["users" := UserModel], "web")
  }

  /** The setUp of the cache tests, then `it_can_cache_the_permissions`:
      a second registration issues no query. */
  method CachesPermissions() {
    var db := new Database(RoleModel);
    var reg := new PermissionRegistrar(db);
    reg.ForgetCachedPermissions();
    var ok := reg.RegisterPermissions(false);
    assert ok && db.fetches == 1;
    ok := reg.RegisterPermissions(false);
    assert ok && db.fetches == 1;
  }

  /** `permission_creation_and_updating_should_flush_the_cache`, and the no-stale-read
      property: the rebuild after a create sees the new row. */
  method PermissionCreationFlushesCache() {
    var db := new Database(RoleModel);
    var reg := new PermissionRegistrar(db);
    var ok := reg.RegisterPermissions(false);
    assert db.fetches == 1 && reg.cache == Some([]);
    var p := Create(reg, Attributes("new", None), "web");
    assert p == Ok(Permission(1, "new", "web"));
    assert db.fetches == 1 && reg.cache == None;
    ok := reg.RegisterPermissions(false);
    assert ok && db.fetches == 2;
    assert reg.cache.Some? && reg.cache.value[0].permission == Permission(1, "new", "web");
    DefineAbilities(map[], reg.cache.value, "new");
    assert "new" in reg.gate;
  }

  const EditArticles := Permission(1, "edit-articles", "web")
  const EditNews := Permission(2, "edit-news", "web")

  /** Both seeded names resolve, under guard `web`, to their rows. */
  lemma SeededNamesResolve(cached: seq<CachedPermission>)
    requires |cached| == 2 && cached[0].permission == EditArticles && cached[1].permission == EditNews
    ensures Resolve([ByName("edit-articles"), ByName("edit-news")], Ok(cached), "web") == Ok([EditArticles, EditNews])
  {
    var refs := [ByName("edit-articles"), ByName("edit-news")];
    assert FindIn(cached, "edit-articles", "web") == Some(EditArticles);
    assert FindIn(cached, "edit-news", "web") == Some(EditNews);
    assert ResolveOne(refs[0], Ok(cached), "web") == Ok(EditArticles);
    assert ResolveOne(refs[1], Ok(cached), "web") == Ok(EditNews);
    ResolveSpec(refs, Ok(cached), "web");
    var ps := Resolve(refs, Ok(cached), "web").value;
    assert |ps| == 2 && ps[0] == EditArticles && ps[1] == EditNews;
    assert ps == [EditArticles, EditNews];
  }

  /** The permissions `edit-articles` (id 1) and `edit-news` (id 2) of guard `web`, as the
      test case seeds them, with no pivot rows. */
  method Seeded() returns (db: Database, reg: PermissionRegistrar)
    ensures fresh(db) && fresh(reg) && reg.db == db && db.roleModel == RoleModel
    ensures db.permissions == [EditArticles, EditNews]
    ensures db.nextId == 3 && db.edges == map[] && db.failure == None && db.fetches == 0
    ensures reg.cache == None && reg.gate == map[] && reg.log == []
  {
    db := new Database(RoleModel);
    db.permissions := [EditArticles, EditNews];
    db.nextId := 3;
    reg := new PermissionRegistrar(db);
  }

  /** `adding_a_permission_to_a_role_should_flush_the_cache`: the grant costs no rebuild,
      flushes the cache, and the next rebuild shows the role holding the permission. */
  method AddingPermissionToRoleFlushesCache() {
    var db, reg := Seeded();
    var ok := reg.RegisterPermissions(false);
    assert ok && db.fetches == 1;
    var role := Subject(RoleModel, 7, Some("web"));
    var p := Permission(1, "edit-articles", "web");
    FlattenFlat([ByObject(p)]);
    ResolveSpec([ByObject(p)], reg.View(), DefaultGuardName(role, TestConfig()));
    var r := GivePermissionTo(reg, role, [ByObject(p)], TestConfig());
    assert r == Pass && db.fetches == 1 && reg.cache == None;
    assert db.edges[role.Key()] == [1];
    var snapshot := reg.GetPermissions();
    assert db.fetches == 2;
    assert 7 in snapshot.value[0].roles;
  }

  /** `has_permission_to_should_use_the_cache` up to the grant: names are resolved from the
      populated cache, so the grant of two names issues no rebuild. */
  method GrantByNameUsesCache() {
    var db, reg := Seeded();
    var snapshot := reg.GetPermissions();
    assert db.fetches == 1 && reg.cache == Some(db.Snapshot());
    var role := Subject(RoleModel, 1, Some("web"));
    var refs := [ByName("edit-articles"), ByName("edit-news")];
    GrantedNames(reg.cache.value, role);
    var r := GivePermissionTo(reg, role, [Many(refs)], TestConfig());
    assert db.fetches == 1;
    assert r == Pass && db.edges[role.Key()] == [1, 2];
  }

  /** What `GrantByNameUsesCache` validates: both names, flattened out of their list. */
  lemma GrantedNames(cached: seq<CachedPermission>, role: Subject)
    requires |cached| == 2 && cached[0].permission == EditArticles && cached[1].permission == EditNews
    requires role == Subject(RoleModel, 1, Some("web"))
    ensures Validate(Flatten([Many([ByName("edit-articles"), ByName("edit-news")])]), Ok(cached), role, TestConfig())
      == Ok([EditArticles, EditNews])
    ensures Ids([EditArticles, EditNews]) == [1, 2]
  {
    var refs := [ByName("edit-articles"), ByName("edit-news")];
    FlattenNested([], refs, []);
    assert [] + [Many(refs)] + [] == [Many(refs)] && [] + refs + [] == refs;
    FlattenFlat(refs);
    SeededNamesResolve(cached);
    assert GuardNames(role, TestConfig()) == ["web"] && DefaultGuardName(role, TestConfig()) == "web";
  }

  /** A role guarded by `api` cannot be given a `web` permission: no pivot row is written
      and the populated cache stays as it was. */
  method GuardMismatchWritesNothing() {
    var db, reg := Seeded();
    var snapshot := reg.GetPermissions();
    var role := Subject(RoleModel, 1, Some("api"));
    var p := Permission(1, "edit-articles", "web");
    FlattenFlat([ByObject(p)]);
    ResolveSpec([ByObject(p)], reg.View(), DefaultGuardName(role, TestConfig()));
    var r := GivePermissionTo(reg, role, [ByObject(p)], TestConfig());
    assert r == Fail(GuardDoesNotMatch("web", ["api"]));
    assert db.edges == map[] && reg.cache == Some(snapshot.value);
  }

  /** `givePermissionTo()` with nothing to give issues no query: even with the tables gone it
      succeeds and flushes the cache. */
  method EmptyGrantWithTablesGone() {
    var db, reg := Seeded();
    var snapshot := reg.GetPermissions();
    db.failure := Some("no such table: role_permissions");
    var role := Subject(RoleModel, 1, Some("web"));
    var r := GivePermissionTo(reg, role, [], TestConfig());
    assert r == Pass && reg.cache == None && db.edges == map[];
  }

  /** A second create of the same (name, guard) is refused and inserts nothing. */
  method DuplicateCreateFails() {
    var db, reg := Seeded();
    var q := Create(reg, Attributes("edit-articles", None), "web");
    assert q == Err(PermissionAlreadyExists("edit-articles", "web"));
    assert db.permissions == [Permission(1, "edit-articles", "web"), Permission(2, "edit-news", "web")];
  }

  /** The logging tests: with the tables gone, registration answers false, and writes the
      alert only when the setting asks for it. */
  method RegistrationFailureLogging() {
    var db := new Database(RoleModel);
    var reg := new PermissionRegistrar(db);
    db.failure := Some("no such table: permissions");
    var ok := reg.RegisterPermissions(false);
    assert !ok && reg.log == [] && reg.gate == map[];
    ok := reg.RegisterPermissions(true);
    assert !ok && |reg.log| == 1 && reg.log[0][..|AlertPrefix|] == AlertPrefix;
  }

  /** A role holding `edit-articles`, with the cache populated from that store. */
  method SeededRole() returns (db: Database, reg: PermissionRegistrar, role: Subject)
    ensures fresh(db) && fresh(reg) && reg.db == db && db.roleModel == RoleModel
    ensures role == Subject(RoleModel, 7, Some("web"))
    ensures db.permissions == [Permission(1, "edit-articles", "web")]
    ensures db.edges == map[role.Key() := [1]] && db.failure == None
    ensures reg.Coherent() && reg.cache.Some? && 7 in reg.cache.value[0].roles
  {
    db := new Database(RoleModel);
    role := Subject(RoleModel, 7, Some("web"));
    db.permissions := [Permission(1, "edit-articles", "web")];
    db.nextId := 2;
    db.edges := map[role.Key() := [1]];
    reg := new PermissionRegistrar(db);
    var snapshot := reg.GetPermissions();
  }

  /** The stale cache `syncPermissions` leaves behind: the role is synced to an unknown name;
      the sync fails after the detach, and the cache still shows the role holding the
      permission the store no longer links to it. */
  method SyncFailureLeavesStaleCache() {
    var db, reg, role := SeededRole();
    FlattenFlat([ByName("missing")]);
    ResolveSpec([ByName("missing")], reg.View(), DefaultGuardName(role, TestConfig()));
    var r := SyncPermissions(reg, role, [ByName("missing")], TestConfig());
    assert r == Fail(PermissionDoesNotExist("missing", "web"));
    assert db.edges == map[role.Key() := []];
    assert 7 in reg.cache.value[0].roles && 7 !in db.Snapshot()[0].roles;
    assert !reg.Coherent();
  }

  /** The same sync with the corrected operation: nothing is detached and the cache stays coherent. */
  method AtomicSyncFailureKeepsCache() {
    var db, reg, role := SeededRole();
    FlattenFlat([ByName("missing")]);
    ResolveSpec([ByName("missing")], reg.View(), DefaultGuardName(role, TestConfig()));
    var r := SyncPermissionsAtomic(reg, role, [ByName("missing")], TestConfig());
    assert r == Fail(PermissionDoesNotExist("missing", "web"));
    assert db.edges == map[role.Key() := [1]] && reg.Coherent();
  }
}
