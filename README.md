# User-setting migration helpers, modelled in Dafny

This project models the migration helper of Beekeeper Studio that seeds the
`user_setting` table. `addUserSetting` takes a key and the options of one
setting. These are a default value, a value type, an optional user value,
optional Linux, Mac and Windows defaults, and an "insert or ignore" flag. The
helper checks the required fields and fills in defaults. It then picks a
three-column or a seven-column row shape and a plain or an "insert or ignore"
insert, and sends exactly one statement to the migration's query runner.
`addUserSettings` does this for a list of settings, one after another, and
stops at the first failure.

The statement is modelled as a value, not as SQL text. A `Statement` has a
conflict mode, the table name, an ordered list of columns and an ordered list
of values. A value is a string literal, NULL or an integer.

Files:

- `wrappers.dfy`, module `Wrappers`: `Option`, `Result` and `Outcome`.
- `helpers.dfy`, module `MigrationHelpers`: the pure part. It holds the value
  types and their tags, the options, `Validate`, `Resolve` (the default
  resolution), `ChooseShape`, `BuildStatement` and `Plan`, and a lookup of a
  column's value in a statement. The lemmas state what the statement holds.
- `runner.dfy`, module `MigrationRunner`: the query runner as a class
  `Executor`. `sent` records every statement it receives and `log` the ones
  the store accepted. It also holds the pure effect of one call (`Send`) and
  of a batch (`RunBatch`). The methods `AddUserSetting` and `AddUserSettings`
  are proved equal to those effects, and the lemmas state what a batch leaves
  behind.

The store behind the runner is a parameter, `Responder`. It decides whether a
statement is accepted from the statements accepted so far. This is an
assumption: the model knows nothing else about the database.

The batch functions and lemmas are stated for any per-entry planner
(`Planner`). `AddUserSettings` uses the helper's own, `PlanEntry`, which is
`Plan` applied to an entry's key and options. In the batch lemmas, "entry i
passes validation" is `plan(settings[i]).Success?`. For `PlanEntry` this is
`Validate(key, options).Pass?`, by the contract of `Plan`.

Points where the code's behaviour is worth stating exactly:

- The code interpolates keys and values into the SQL text unescaped. The
  model builds no SQL text, so quoting is not modelled either way.
- `addUserSettings` lets the failing entry's rejection propagate out of its
  `for` loop with no position attached. The model passes the error on
  unchanged and also returns the index (`Stopped(index, error)`), which the
  lemmas use.
- `!key` on a value declared as `string` rejects only the empty string. The
  model rejects exactly the empty key.

## Model

| member | source | states |
|---|---|---|
| `MigrationHelpers.UserSettingValueType.Tag` | apps/studio/src/migration/helpers.ts:11-16 | each value type has the enum's integer tag, a number from 0 to 5; `TagRoundTrip` states that different types get different tags |
| `MigrationHelpers.ValueTypeOfTag` | apps/studio/src/migration/helpers.ts:10-17 | exactly the tags 0..5 name a value type, and decoding a tag gives a type whose tag it is |
| `MigrationHelpers.TagRoundTrip` | apps/studio/src/migration/helpers.ts:10-17 | every value type's tag decodes back to that type, so the stored integer identifies the type |
| `MigrationHelpers.Validate` | apps/studio/src/migration/helpers.ts:66-68 | a call is rejected iff the key is empty, the default value is left out or the value type is left out; the error carries those three inputs |
| `MigrationHelpers.Resolve` | apps/studio/src/migration/helpers.ts:55-68 | resolution succeeds exactly when validation passes, fails with the validation error otherwise, and keeps key, default value and value type as given |
| `MigrationHelpers.FalsyLookingInputsPass` | apps/studio/src/migration/helpers.ts:66 | an empty-string default value and the `string` type (tag 0) pass validation, and tag 0 is written |
| `MigrationHelpers.ChooseShape` | apps/studio/src/migration/helpers.ts:73-78 | picks the full shape when there is a user value or a non-empty platform default; its contract over the caller's options is `ShapeFollowsOptions` |
| `MigrationHelpers.Mode` | apps/studio/src/migration/helpers.ts:70 | picks "insert or ignore" from the flag; its contract over the caller's options is `ModeFollowsFlag` |
| `MigrationHelpers.FullStatement` | apps/studio/src/migration/helpers.ts:80-98 | the full insert has the seven columns key, userValue, defaultValue, linuxDefault, macDefault, windowsDefault, valueType, in this order |
| `MigrationHelpers.SimpleStatement` | apps/studio/src/migration/helpers.ts:101-104 | the simple insert has exactly the columns key, defaultValue, valueType |
| `MigrationHelpers.BuildStatement` | apps/studio/src/migration/helpers.ts:72-105 | the statement names `user_setting`, gives one value per column, repeats no column, and has the full column list when the full shape is chosen and the simple one otherwise |
| `MigrationHelpers.Plan` | apps/studio/src/migration/helpers.ts:55-105 | a statement is built exactly when validation passes; otherwise the result is the missing-fields error |
| `MigrationHelpers.FullStatementValues` | apps/studio/src/migration/helpers.ts:90-96 | in the full insert each of the seven columns holds the resolved field; the user-value slot is NULL when there is no user value |
| `MigrationHelpers.SimpleStatementValues` | apps/studio/src/migration/helpers.ts:102-103 | in the simple insert key, defaultValue and valueType hold the resolved fields, and the other four columns are not written |
| `MigrationHelpers.StatementCarriesRequiredFields` | apps/studio/src/migration/helpers.ts:90-103 | in either shape the statement writes the given key, the given default value and the integer tag of the given value type, unchanged |
| `MigrationHelpers.ShapeFollowsOptions` | apps/studio/src/migration/helpers.ts:72-78 | the full column list is used iff a user value is given (not null, not left out) or some platform default is given and non-empty; otherwise exactly key, defaultValue, valueType |
| `MigrationHelpers.ModeFollowsFlag` | apps/studio/src/migration/helpers.ts:62-70 | the mode is "insert or ignore" iff the flag is given as true; a left-out or false flag gives a plain insert |
| `MigrationHelpers.FullShapeSlots` | apps/studio/src/migration/helpers.ts:58-95 | in the full shape the user-value slot holds the given string, or NULL when the user value is null or left out; a left-out platform default is written as the empty string |
| `MigrationHelpers.EmptyUserValueIsWritten` | apps/studio/src/migration/helpers.ts:73-91 | an empty-string user value selects the full shape and is written as the empty string, not as NULL |
| `MigrationHelpers.SimpleShapeOmitsOnlyEmptyFields` | apps/studio/src/migration/helpers.ts:73-104 | when the simple shape is chosen, the four columns it leaves out are the ones the seven-column insert would fill with NULL (userValue) and the empty string (the platform defaults) |
| `MigrationHelpers.ShapesStoreSameRow` | apps/studio/src/migration/helpers.ts:78-105 | assuming NULL and the empty string as the table's column defaults (`AssumedColumnDefault`), the statement sent stores, for every column, the same value as the seven-column insert of the same setting |
| `MigrationHelpers.ThemeSimpleScenario` | apps/studio/src/migration/helpers.ts:99-104 | key "theme", default "dark", type `string` gives the plain three-column insert ("theme", "dark", 0) |
| `MigrationHelpers.ThemeFullScenario` | apps/studio/src/migration/helpers.ts:78-98 | adding Linux and Mac defaults gives the seven-column insert with a NULL user value and an empty Windows default |
| `MigrationRunner.Executor.Query` | apps/studio/src/migration/helpers.ts:107 | sending a statement records it as sent, returns the store's answer, and appends it to the log exactly when the store accepts it |
| `MigrationRunner.Send` | apps/studio/src/migration/helpers.ts:107 | the single `runner.query` dispatch and its error pass-through; its contract is `AddUserSettingJournal` |
| `MigrationRunner.AddUserSettingJournal` | apps/studio/src/migration/helpers.ts:50-108 | a rejected call sends nothing, leaves the journal unchanged and fails with the missing-fields error; an accepted one sends exactly the built statement once, logs it iff the store accepts it, and passes a store failure on unchanged |
| `MigrationRunner.AddUserSetting` | apps/studio/src/migration/helpers.ts:50-108 | the runner's new state and the outcome are those of one call; a validation failure sends nothing, a valid call sends exactly its statement, and a success logs it |
| `MigrationRunner.RunBatch` | apps/studio/src/migration/helpers.ts:113-120 | a batch that stops does so at an index inside the list |
| `MigrationRunner.AddUserSettings` | apps/studio/src/migration/helpers.ts:113-120 | the loop's outcome and the runner's new state are those of the batch over the list, in list order, stopping at the first failure |
| `MigrationRunner.BatchPrefixValid` | apps/studio/src/migration/helpers.ts:117-119 | every entry before the one the batch stopped at (all entries, if it completed) passed validation |
| `MigrationRunner.BatchLog` | apps/studio/src/migration/helpers.ts:117-119 | the log grows by exactly the statements of the entries processed before the stop, in input order |
| `MigrationRunner.BatchSent` | apps/studio/src/migration/helpers.ts:117-119 | the statements sent are those of the processed entries, plus that of the failing entry if it passed validation; nothing after the failing entry is sent |
| `MigrationRunner.BatchStopCause` | apps/studio/src/migration/helpers.ts:117-119 | a batch stops at entry k either with entry k's validation error, or because the store refused entry k's statement after those of entries 0..k-1, with the store's error unchanged |
| `MigrationRunner.BatchStopsAtFirstFailure` | apps/studio/src/migration/helpers.ts:117-119 | a batch that stops at entry k gives the same outcome and journal whatever follows entry k in the list |
| `MigrationRunner.BatchCompleted` | apps/studio/src/migration/helpers.ts:117-119 | a completed batch validated every entry, and both sent and logged exactly all their statements in list order |
| `MigrationRunner.EmptyBatch` | apps/studio/src/migration/helpers.ts:117 | an empty list completes and sends nothing |
| `MigrationRunner.BatchScenario` | apps/studio/src/migration/helpers.ts:117-119 | for entries "a", "" and "c" with a store that accepts everything, "a" is inserted, the batch stops at index 1 with the validation error, and "c" is never sent |

## Left out

- SQL text: the whitespace, quoting and raw string interpolation of the two query templates are not modelled. Keys or values containing quotes are not modelled either. The structured statement records every decision the helper makes.
- The TypeORM query runner and the database: the store is the `Responder` parameter. This assumes its answer depends only on the statements it accepted before. How SQLite treats a duplicate key under a plain insert or under "insert or ignore" is not modelled. So the idempotence of repeated "insert or ignore" calls is not stated.
- The table's column defaults used by the simple shape (`AssumedColumnDefault`: NULL for `userValue`, the empty string for the platform defaults) are an assumption. The migration that creates the table is not part of this model.
- `async`/`await`: each awaited query is a sequential call that returns or fails. There is no concurrency.
- Transactions and rollback belong to the runner's owner. The helper performs none.
- The error message text is not modelled. The validation error carries the key, the default value and the value type that the message prints.
- Values outside the declared TypeScript types are not modelled: a key that is undefined or null at run time, a null default value or platform default, and a numeric value type outside the enum.
