# Permission cache, lookup and grants of the Konekt ACL package (lopadova/acl)

This project models the core of a Laravel role-based access-control package:

- the **permission registrar**, a two-state cache (Empty / Populated) over the
  snapshot "all permissions with their roles", with one storage fetch per
  rebuild, explicit `forget`, and `registerPermissions`, which projects the
  snapshot onto gate abilities and turns a storage failure into `false` plus an
  optional alert;
- the **Permission model**'s guard defaulting, `create` (duplicate check against
  the cached snapshot, insert, flush) and `findByName` (lookup through the cache,
  `PermissionDoesNotExist`);
- the **HasPermissions trait**: guard names of a subject from the auth
  configuration, the default guard, reference flattening and resolution, the
  guard check, and `givePermissionTo` / `syncPermissions` / `revokePermissionTo`
  with their pivot-table writes and cache flushes.

Storage is an in-memory `Database` class (`storage.dfy`): the permissions table,
the pivot rows of every subject (roles and user-like models alike, keyed by model
class and id), a switch that makes every query fail (the tables are gone), and a
counter of rebuild fetches, so the tests' query counts become contracts. Its
invariant `Valid` is the auto-increment key: rows are in increasing id order and
every id is below the next one to hand out. The
registrar (`registrar.dfy`) is a class holding the cache slot, the gate (ability
name → the permission its check uses) and the alert log. Exceptions are values of
`Records.Error`, returned in `Result`/`Outcome`. Configuration (`auth.guards`,
`auth.providers.*.model`, `auth.defaults.guard`, `konekt.acl.log_registration_exception`)
is passed as parameters.

The central invariant is `PermissionRegistrar.Coherent()`: a Populated cache holds
exactly what the store holds. `create`, `givePermissionTo`, `revokePermissionTo`,
`getPermissions` and `registerPermissions` preserve it; `syncPermissions` as
written does not (see Findings).

Flattening yields `seq<Leaf>`, where a `Leaf` is a reference that is not a list,
so every reference resolved after `flatten()` is a name or a permission model by
its type.

`scenarios.dfy` replays the cache and logging tests (tests/CacheTest.php,
tests/LoggingTest.php) as client methods whose assertions follow from the
contracts alone: two registrations cost one rebuild, a create or a grant flushes
the cache and the next registration rebuilds once, names are resolved from a
Populated cache without a fetch, a guard mismatch writes nothing, a duplicate
create is refused, a grant of nothing needs no query, and the alert is written
only when the setting is on.

References are names, permission models or nested lists (the code has no
identifier reference), and `syncPermissions` is not atomic.

## Model

| member | source | states |
|---|---|---|
| Storage.RolesOf | src/Models/Permission.php:42-45 | a role id is loaded with a permission exactly when a pivot row of that role names the permission |
| Storage.SnapshotRows | src/PermissionRegistrar.php:64 | the rebuilt snapshot holds exactly the rows of the permissions table, in table order |
| Storage.SnapshotIgnoresNonRoleEdges | src/PermissionRegistrar.php:64 | pivot rows of subjects that are not roles never reach the snapshot, so grants to users cannot make it stale |
| Storage.Without | src/Traits/HasPermissions.php:62 | detaching a permission removes every pivot row naming it and keeps every other row with its multiplicity; no-op when the permission is not attached |
| Storage.Database.FetchAllWithRoles | src/PermissionRegistrar.php:64 | one fetch per call; returns the current snapshot, or the query error when the tables are unavailable |
| Storage.Database.Insert | src/Models/Permission.php:36 | appends exactly one row with the given name and guard under an id no earlier row has, keeping the table in increasing id order below the next id (`Valid`), or fails and changes nothing |
| Storage.Database.Attach | src/Traits/HasPermissions.php:32 | `saveMany` appends one pivot row per permission after the existing ones, or fails and changes nothing; saving nothing issues no query and always succeeds |
| Storage.Database.Detach | src/Traits/HasPermissions.php:62 | only the subject's rows for that permission are removed; other subjects' rows are untouched |
| Storage.Database.DetachAll | src/Traits/HasPermissions.php:48 | all of the subject's pivot rows are removed, nobody else's |
| Registrar.DefineAbilities | src/PermissionRegistrar.php:37-41 | after registration the gate has an ability for every snapshot name, bound to the last permission of that name; abilities of other names are kept |
| Registrar.DefineKeys | src/PermissionRegistrar.php:37-41 | an ability exists after registration exactly when it existed before or a cached permission has that name |
| Registrar.DefineLast | src/PermissionRegistrar.php:38 | a later `define` of a name overwrites an earlier one: the ability is bound to the last cached permission of that name |
| Registrar.DefineKeeps | src/PermissionRegistrar.php:37-41 | an ability whose name no cached permission has is left as it was |
| Registrar.DefineIdempotent | src/PermissionRegistrar.php:34-43 | registering the same snapshot again overwrites and leaves the gate as registering it once |
| Registrar.PermissionRegistrar.GetPermissions | src/PermissionRegistrar.php:61-66 | Populated: returns the stored snapshot, no fetch, state unchanged; Empty: exactly one fetch, returns the current store's snapshot and keeps it; a failed fetch leaves the cache Empty; coherence is preserved |
| Registrar.PermissionRegistrar.ForgetCachedPermissions | src/PermissionRegistrar.php:56-59 | the cache is Empty afterwards whatever it was, so a second call changes nothing |
| Registrar.PermissionRegistrar.RegisterPermissions | src/PermissionRegistrar.php:34-53 | true exactly when the snapshot could be read, and then the gate is the old gate with every cached permission defined; otherwise false, gate unchanged, and one alert appended exactly when logging is on (the `shouldLogException` setting of lines 68-71 is the parameter) |
| PermissionModel.Construct | src/Models/Permission.php:21-26 | a missing guard_name becomes the configured default guard; a given one is kept |
| PermissionModel.CreateDefaultsLikeConstructor | src/Models/Permission.php:23-30 | `create` defaults the guard as the constructor does, and the constructor it runs keeps that guard |
| PermissionModel.FindIn | src/Models/Permission.php:75 | None exactly when no snapshot entry has the (name, guard) pair; otherwise the first matching entry's permission |
| PermissionModel.Lookup | src/Models/Permission.php:75-81 | `PermissionDoesNotExist(name, guard)` exactly when no entry matches; a returned permission has the requested name and guard and is in the snapshot; a failed cache read propagates |
| PermissionModel.FindByName | src/Models/Permission.php:71-82 | the lookup runs under the given guard or the default one, reads only through the cache (no fetch when Populated) and keeps the cache coherent |
| PermissionModel.Create | src/Models/Permission.php:28-37 | `PermissionAlreadyExists` when the snapshot has the pair, and on any error the table and the next id are unchanged; otherwise exactly one row with the name and defaulted guard is added under a new id and the cache is Empty; from a coherent cache, (name, guard) stays unique across the table |
| HasPermissions.GuardsForSpec | src/Traits/HasPermissions.php:107-114 | exactly the guard keys whose provider model is the subject's class; the first is the first such guard in configuration order |
| HasPermissions.GuardsForAppend | src/Traits/HasPermissions.php:107-114 | the guards of a concatenated configuration are those of each part, in order: with `GuardsForOne` the result is the in-order filter of `auth.guards` |
| HasPermissions.GuardsForOne | src/Traits/HasPermissions.php:108-113 | one guard contributes its key exactly when its provider's model is the subject's class |
| HasPermissions.GuardsForDistinct | src/Traits/HasPermissions.php:114 | the guard keys returned have no repeats when the configuration's keys have none |
| HasPermissions.GuardNames | src/Traits/HasPermissions.php:101-115 | the singleton of the subject's own guard when it has a truthy one, otherwise the guards serving its class in configuration order (`GuardsFor`) |
| HasPermissions.DefaultGuardName | src/Traits/HasPermissions.php:117-122 | the first guard name when it is truthy; the configured default when there is no guard name or the first one is falsy |
| HasPermissions.SharesGuard | src/Traits/HasPermissions.php:94-99 | passes exactly when the permission's guard is among the subject's guard names, else `GuardDoesNotMatch` with both |
| HasPermissions.CheckGuards | src/Traits/HasPermissions.php:27-29 | passes exactly when every guard is among the names; otherwise fails on the first permission whose guard is not |
| HasPermissions.FlattenAppend | src/Traits/HasPermissions.php:22-23 | flattening distributes over concatenation |
| HasPermissions.FlattenFlat | src/Traits/HasPermissions.php:23 | an already flat argument list is left as it is |
| HasPermissions.FlattenNested | src/Traits/HasPermissions.php:22-23 | a nested list means the same as its items in its place: `give(a, [b, c])` is `give(a, b, c)` |
| HasPermissions.ResolveSpec | src/Traits/HasPermissions.php:24-26 | resolution succeeds exactly when every reference resolves, yielding one permission per reference in order; otherwise it fails with the first failing reference's error |
| HasPermissions.ResolveKeepsError | src/Traits/HasPermissions.php:24-26 | the exception of the first reference that does not resolve stops the whole grant: later references change nothing |
| HasPermissions.Validate | src/Traits/HasPermissions.php:22-30 | a resolution error wins over any guard check; after full resolution the grant is accepted exactly when every guard matches, and a rejection is `GuardDoesNotMatch` |
| HasPermissions.GetStoredPermission | src/Traits/HasPermissions.php:74-87 | a name is looked up under the subject's default guard through the cache; a permission model is returned as it is, with no read |
| HasPermissions.CollectPermissions | src/Traits/HasPermissions.php:22-30 | returns the validation outcome for the flattened references; at most one fetch, none when Populated; cache view and coherence unchanged |
| HasPermissions.GivePermissionTo | src/Traits/HasPermissions.php:20-37 | on any resolution or guard error no pivot row is written and a Populated cache is kept; on success the resolved permissions are appended to the subject's rows, existing rows remain, and the cache ends Empty; with nothing to give it succeeds and flushes even when storage is failing |
| HasPermissions.SyncPermissions | src/Traits/HasPermissions.php:46-51 | on success the subject's rows are exactly the new permissions and the cache is Empty; on a validation failure the subject is left with no rows and the cache is not flushed |
| HasPermissions.SyncPermissionsAtomic | src/Traits/HasPermissions.php:46-51 | corrected sync: a failure writes nothing; success leaves exactly the new permissions and an Empty cache; coherence is preserved |
| HasPermissions.RevokePermissionTo | src/Traits/HasPermissions.php:60-67 | on a resolution error nothing changes; otherwise only that permission's rows of the subject are removed (no-op if absent) and the cache ends Empty |

## Left out

- Eloquent, the query builder and SQL: replaced by the in-memory `Database`; `users()` and `getModelForGuard` (src/Models/Permission.php:50-59) are not modelled.
- Query counting: `fetches` counts rebuilds of the snapshot, which the tests see as two SQL queries each; inserts and pivot writes are not counted.
- A failing storage is one switch that fails every query; a failure in the middle of `saveMany` (some rows written) is not modelled.
- Pivot rows are a sequence: granting a permission twice adds a second row, as `saveMany` does without a unique index.
- The gate's closures and `hasPermissionTo`: the gate maps each ability name to the permission its check would use; the HasRoles trait and the Role model are not part of this model.
- The model events of `RefreshesPermissionCache`: modelled only as the flush `create` performs after its insert; updates and deletes of permissions and roles are not modelled.
- Cache expiration (`cache_expiration_time`): not modelled; it would be an external eviction equal to `forget`.
- The array branch of `getStoredPermission` (src/Traits/HasPermissions.php:80-84): unreachable from `givePermissionTo` after flattening; `RevokePermissionTo` takes a `Leaf`, a name or a permission model.
- Exception texts and the logger's formatting and stack trace: an exception is its kind and fields; an alert is the fixed prefix followed by the storage error's message.
- PHP array keys: guard names that PHP would turn into integer keys are not modelled; truthiness of strings (`""` and `"0"`) is.
- Concurrency: everything is sequential.
- Records.Matches, HasPermissions.SharesGuard: names and guards are compared by exact string equality; PHP's loose `==` behind `Collection::where` and `contains`, under which numeric strings such as `"100"` and `"1e2"` are equal, is not modelled, so with such names `findByName` and the duplicate check of `create` can match where the model does not.
- HasPermissions.GivePermissionTo: states the rebuild count as at most one (none when Populated) rather than exactly one when the cache was Empty and some reference is a name.

## Findings

| source | as written | input that shows it | evidently intended | confidence | as-written member | corrected member |
|---|---|---|---|---|---|---|
| src/Traits/HasPermissions.php:46-51 | every pivot row of the subject is detached before the new permissions are resolved and guard-checked; when that fails the detach stays and the cache is not flushed, so for a role the Populated snapshot still shows it holding permissions the store no longer links to it | a role holding `edit-articles`, cache Populated, synced to `['missing']` (`CacheScenarios.SyncFailureLeavesStaleCache`) | validate everything before the first write, so a failing sync writes nothing and every write is followed by a flush | not executed; the stale snapshot follows from the code as written | HasPermissions.SyncPermissions | HasPermissions.SyncPermissionsAtomic |
