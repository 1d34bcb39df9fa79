# alice-laravel: the fixture loader wrapper and the generic record, in Dafny

This project models the two pieces of logic that alice-laravel adds on top of its
fixture engine (Nelmio Alice) and its ORM (Eloquent):

- **`ModelLoader`** keeps a *load context*, set wholesale by `withContext` and read back by
  `getContext`. Each of its three load calls (`loadFiles`, `loadFile`, `loadData`)
  first merges the call-site parameters over the context's `parameters` defaults
  (`mergeParameters`, which is PHP `array_merge` on string keys). It then hands the
  payload, the merged parameters and the seed objects to the fixture engine, and returns
  the engine's answer unchanged.
- **`GenericModel`** is one Eloquent record class that can be retargeted per instance.
  Its constructor applies a configuration map (`applyContext`) before anything else.
  - Each of the twelve recognised keys that is present in the map overwrites one setting:
    connection, table, fillable, guarded, casts, touches, key name, key type,
    incrementing, timestamps, and the created-at and updated-at column overrides.
  - `incrementing` and `timestamps` are cast to bool.
  - The two column overrides live in a `_meta` map. `getCreatedAtColumn` and
    `getUpdatedAtColumn` read them, falling back to the framework's `created_at` and
    `updated_at`.

Files:

- `wrappers.dfy`: `Option` and `Result`.
- `php_values.dfy` (module `PhpValues`): the PHP values that flow through both classes.
  It also gives PHP's `(bool)` cast and the `?string` return coercion, including the
  int-to-decimal conversion with its round trip.
- `model_loader.dfy` (module `Loader`) covers `ModelLoader`:
  - the merge, as a function, with its laws;
  - the engine, as a class that logs each request and answers it with a fixed function;
  - the loader, as a class with a `context` field.
- `generic_model.dfy` (module `Models`) covers `GenericModel`:
  - `Apply`, a specification of `applyContext` that runs the twelve blocks in the
    source's order and stops at a `TypeError`;
  - `Overlaid`, an order-free reference, setting by setting, that the lemmas connect to
    `Apply`;
  - the `GenericModel` class, whose fields the methods update in place, proved against
    `Apply`.

The model follows the code on three points that are easy to miss:

- `mergeParameters` tests `isset`, so a `parameters` entry that is present but null
  behaves like a missing one.
- `setFillable`, `setCasts` and `setTouches` declare `array` parameters. So a non-array
  value under one of those keys throws a `TypeError` in the middle of `applyContext`, and
  the keys applied before it stay applied.
- The column lookups use `??` and return `?string`. A null override falls back to the
  default. An int or bool override is converted to a string, and an array override is a
  `TypeError`.

## Model

| member | source | states |
|---|---|---|
| PhpValues.Truthy | src/Models/GenericModel.php:81-87 | the `(bool)` cast is false exactly on null, false, 0, "", "0" and the empty array |
| PhpValues.DigitsRoundTrip | src/Models/GenericModel.php:103-106 | reading back the decimal digits an int is written with gives the int |
| PhpValues.DecimalStringRoundTrip | src/Models/GenericModel.php:103-106 | the sign and digits of an int's string form give back the int, with a leading minus exactly for negatives |
| PhpValues.ReturnAsString | src/Models/GenericModel.php:103-106 | a non-null value returned as `?string` fails exactly when it is an array; a string passes unchanged, an int becomes its decimal form, a bool becomes "1" or "" |
| Loader.Merge | src/Loader/ModelLoader.php:101 | the merged keys are the union of both key sets; call-site values win; keys only in the defaults keep their value |
| Loader.MergeParameters | src/Loader/ModelLoader.php:95-102 | a missing or null `parameters` entry, or an empty array, leaves the call-site parameters unchanged; map defaults are overlaid by the call site; the result is an error exactly when the entry is neither null, a map nor the empty array |
| Loader.MergeIdempotent | src/Loader/ModelLoader.php:101 | merging the defaults under an already merged set, or the call site over it, changes nothing |
| Loader.MergeParametersIdempotent | src/Loader/ModelLoader.php:95-102 | feeding the merged parameters back into the same loader's merge returns them unchanged |
| Loader.MergeMonoid | src/Loader/ModelLoader.php:101 | overlaying is associative, and the empty array is its identity on both sides |
| Loader.Passed | src/Loader/ModelLoader.php:43-70 | a load call returns the engine's object set unchanged and lets an engine failure through |
| Loader.ModelLoader.constructor | src/Loader/ModelLoader.php:26-34 | a new loader has an empty context |
| Loader.ModelLoader.WithContext | src/Loader/ModelLoader.php:78-83 | the context becomes exactly the given map, not merged with the old one, and the same loader is returned |
| Loader.ModelLoader.GetContext | src/Loader/ModelLoader.php:90-93 | returns the context last set, verbatim |
| Loader.ModelLoader.LoadFiles | src/Loader/ModelLoader.php:43-46 | after a successful merge the engine receives exactly one request (the files, the merged parameters, the objects) and its answer is returned; a failed merge reaches no engine |
| Loader.ModelLoader.LoadFile | src/Loader/ModelLoader.php:55-58 | the same, for one file |
| Loader.ModelLoader.LoadData | src/Loader/ModelLoader.php:67-70 | the same, for in-memory data |
| Loader.LoadFileScenario | tests/Loader/ModelLoaderTest.php:26-51 | with defaults `{global, foo: baz}` and call site `{lorem, foo: bar}` the engine receives `{global, lorem, foo: bar}` and the test's file name |
| Loader.LoadDataWithoutContextScenario | tests/Loader/ModelLoaderTest.php:140-169 | without a context the engine receives the call-site parameters unchanged |
| Models.SetSettings | src/Models/GenericModel.php:49-95 | one block changes the setting for its key (flags cast to bool) and no other setting, nor the rest of `_meta` |
| Models.StepExtendsOverlay | src/Models/GenericModel.php:49-95 | a well-typed block run on the overlay of the keys before it gives the overlay of the keys up to and including it |
| Models.ApplyFirstSucceeds | src/Models/GenericModel.php:49-95 | with no ill-typed key among the first n blocks, they succeed and give the order-free overlay of those keys |
| Models.ApplyFirstFails | src/Models/GenericModel.php:57-71 | the first ill-typed array key stops every later block, and its name is reported |
| Models.ApplyFirstStopped | src/Models/GenericModel.php:57-71 | once a block has thrown, the later blocks change nothing |
| Models.IllTypedKeys | src/Models/GenericModel.php:122-160 | only fillable, casts and touches can be ill-typed; a map is well typed exactly when none is |
| Models.ApplySetsExactlyThePresentKeys | src/Models/GenericModel.php:43-96 | on a well-typed map, every recognised key present (null included) sets its setting, flags as bool, and every other setting and the rest of `_meta` is unchanged |
| Models.ApplyStopsAtFirstIllTypedKey | src/Models/GenericModel.php:43-96 | an error happens exactly on ill-typed maps; it names the first bad key among fillable, casts and touches, and exactly the keys before it are applied |
| Models.ApplyWithoutRecognisedKeys | src/Models/GenericModel.php:45-47 | an empty map, or one with no recognised key, changes nothing |
| Models.ApplyIgnoresUnrecognisedKeys | src/Models/GenericModel.php:43-96 | two maps that agree on the twelve keys have the same effect, error included |
| Models.ApplyIdempotent | src/Models/GenericModel.php:43-96 | applying a well-typed map twice is applying it once |
| Models.ApplyInTurn | src/Models/GenericModel.php:43-96 | applying `a` and then `b` is applying `a` overlaid by `b` |
| Models.TimestampColumn | src/Models/GenericModel.php:103-116 | a missing or null override gives the default; a string override is returned; only an array override fails |
| Models.TimestampColumnAfterApply | src/Models/GenericModel.php:89-95 | after applying a map, the column follows its entry if present (null falls back to the default, even over an earlier override), and is unchanged otherwise |
| Models.GenericModel.constructor | src/Models/GenericModel.php:33-38 | the fields are the defaults with the map applied, setting by setting |
| Models.GenericModel.ApplyContext | src/Models/GenericModel.php:43-96 | the new fields and the error are those of `Apply` on the fields at entry |
| Models.GenericModel.ApplyConnectionToFillable | src/Models/GenericModel.php:49-59 | the fields after the first three blocks are those of the specification's first three |
| Models.GenericModel.ApplyGuardedAndCasts | src/Models/GenericModel.php:61-67 | the same for blocks four and five |
| Models.GenericModel.ApplyKeyNameToIncrementing | src/Models/GenericModel.php:73-83 | the same for blocks seven to nine, which cannot throw |
| Models.GenericModel.ApplyTimestampsToUpdatedAt | src/Models/GenericModel.php:85-95 | the same for the last three blocks, which cannot throw |
| Models.GenericModel.ApplyKey | src/Models/GenericModel.php:49-95 | one block, run through the setters, leaves the fields and the error that `Step` specifies: the key's setting is overwritten when present, and a non-array for an array-typed key throws before anything changes |
| Models.GenericModel.GetCreatedAtColumn | src/Models/GenericModel.php:103-106 | the `_meta` override if set and non-null, else `created_at` |
| Models.GenericModel.GetUpdatedAtColumn | src/Models/GenericModel.php:113-116 | the `_meta` override if set and non-null, else `updated_at` |
| Models.GenericModel.SetFillable | src/Models/GenericModel.php:122-127 | only `fillable` changes, and the same instance is returned |
| Models.GenericModel.SetGuarded | src/Models/GenericModel.php:133-138 | only `guarded` changes (a list or a bool), and the same instance is returned |
| Models.GenericModel.SetCasts | src/Models/GenericModel.php:144-149 | only `casts` changes, and the same instance is returned |
| Models.GenericModel.SetTouches | src/Models/GenericModel.php:155-160 | only `touches` changes, and the same instance is returned |
| Models.SaveTestTimestampColumns | tests/Models/GenericModelTest.php:58-74 | the save test's map is well typed and leads to the columns `date_created` and `date_updated` |
| Models.SaveTestSettings | tests/Models/GenericModelTest.php:58-74 | the save test's map sets table `products` and key `id`, and keeps both flags on |
| Models.SaveTestConfiguration | tests/Models/GenericModelTest.php:58-74 | a model built from the save test's map reports those columns, that table and that key, with both flags on |

## Left out

- The fixture engine's behaviour is not modelled: YAML and PHP fixture parsing, range
  expansion, reference and parameter interpolation, Faker providers and probabilities.
  It is an external library. The engine is a collaborator that logs every request and
  answers with a fixed function of the request.
- The loader's constructor defaulting to a new `NativeLoader` is not modelled; the
  engine is always passed in.
- Loader.MergeParameters: `parameters` defaults given as a non-empty list (integer keys)
  are reported as `IntegerKeyedDefaults` instead of being renumbered and merged the way
  `array_merge` does, because parameters are string-keyed maps here.
- PHP floats and objects are not values of the model. Integer-like string keys, which
  PHP turns into integers, are not modelled either.
- `ObjectSet` and the seed objects are opaque (`Handle`).
- Eloquent is not modelled: the record's attributes (the constructor's first argument),
  mass assignment, casting at runtime, saving, timestamp filling and connection
  resolution. It is foreign framework code and database I/O.
  - `setConnection`, `setTable`, `setKeyName`, `setKeyType` and `setIncrementing` are
    modelled as plain field assignments.
- Models.GenericModel.constructor requires a well-typed map. In the source, an ill-typed
  map throws a `TypeError` out of the constructor, which creates no object.
- Models.GenericModel.ApplyContext: the twelve blocks are grouped into five segment
  methods, split after `fillable`, `casts` and `touches` (the blocks that can throw) and
  after `incrementing`. The blocks, their order and their effects are the source's.
- Models.GenericModel.constructor starts from Eloquent's default values for a record: no
  connection, no table, an empty fillable list, guarded `["*"]`, key `id` of type `int`,
  both flags on, and an empty `_meta`. They come from the framework, not from this
  repository.
- Loader.Merge does not keep `array_merge`'s key order (a shared key keeps the defaults'
  position in PHP), because parameters are an unordered map here.
- Models.GenericModel.GetCreatedAtColumn and Models.GenericModel.GetUpdatedAtColumn fix
  the configuration keys and the default columns to `"created_at"` and `"updated_at"`.
  The source reads them late-bound (`static::CONTEXT_*`, `static::CREATED_AT`,
  `static::UPDATED_AT`), so a subclass could rename them; subclasses are not modelled,
  and the same holds for the twelve keys `applyContext` reads.
- The `= []` default arguments of `loadFiles`, `loadFile`, `loadData` and of the record's
  constructor are not modelled; every argument is passed explicitly.
- The tests that run the real engine (the users and categories fixtures) and the
  database part of the save test are not modelled; their expected values come from seeded
  random generation and SQLite.
