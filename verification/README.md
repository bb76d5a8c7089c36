# gitswitch core, modelled in Dafny

gitswitch (`gs`) registers short aliases for project directories and later resolves
an alias back to its path. This project models the two pieces of its logic that make
decisions:

- **The `add` command** (`cmd/add.go`). From zero, one or two positional arguments it
  resolves an `(alias, path)` pair. To do so it asks a file-service collaborator for
  the current path, a parent-folder name, or whether a path exists. It then calls the
  registry's `Add` once and turns that call's failure into a fixed message.
  Module `AddCommand` (`add_command.dfy`).
- **The registry service** (`libs/db_service.go`, duplicated as `libs/file_manager.go`).
  `Add(alias, path)` runs one read-write transaction and `Get(alias)` runs one
  read-only transaction, both on one configured bucket of a transactional key-value
  database. Module `Registry` (`registry.dfy`).

They are built on:

- `Kv` (`kv.dfy`): the database/transaction/bucket contract of `libs/db.go`. The
  database is an immutable value `Store(buckets: map<string, map<string, string>>)`.
  A bucket name missing from the map is a missing bucket, which `Tx.Bucket` reports as
  nil. Engine failures are not derived from an engine. They are injected through
  `Faults(begin, put, commit)`, one optional error for each place the engine can fail.
  `Update` commits only when the transaction begins, its body succeeds and the commit
  succeeds. On any failure it rolls back. `View` returns no store, so a read-only
  transaction cannot change one. Go's `string(nil) == ""` is `BytesToString` of an
  `Option`.
- `Wrappers` (`wrappers.dfy`): `Option` and `Result`.
- `Errors` (`errors.dfy`): Go errors as `Message(text)`. The command framework's
  `RangeArgs` rejection is `ArgCount(min, max, received)`, because its wording belongs
  to the framework.

The two registry services differ only in the missing-bucket message: `DBService` says
"Bucket <name> not found" and `Service` says "bucket <name> not found". They are one
definition here, parameterised by `Style`. Two lemmas state exactly how far the two
agree.

The file service is an oracle record, `FileOracle`. It holds the result of
`GetCurrentPath`, a function for `GetParentFolderName`, and a function for
`CheckIfPathExists` that returns Go's `(bool, error)` pair as `Probe`. Every
`AddCommand` function returns the ordered list of collaborator calls it made
(`Call`). That list is what lets the model state which collaborator is asked what,
and which is never asked. In `RunE`, the registry's `Add` is a function parameter
from `(alias, path)` to the error it returns. `CommandRegistersResolvedPair`
instantiates that parameter with `Registry.Add` on a store.

`Get` of a key that was never added reads as `("", nil)`. So does a key added with
the empty path. The model keeps this conflation, as the code does, and
`Registry.MissingKeyReadsEmpty` states it.

## Model

| member | source | states |
|---|---|---|
| `Kv.TxBucket` | libs/db.go:91-97 | A bucket handle is returned exactly when the store has a bucket of that name. A missing bucket is nil. |
| `Kv.BucketGet` | libs/db.go:107-109 | A missing key reads as nil, never as an error. A present key reads as its stored value. |
| `Kv.BucketPut` | libs/db.go:103-105 | An injected failure is returned unchanged. Otherwise the key maps to the new value, the key set grows by at most that key, and every other key keeps its value. |
| `Kv.BytesToString` | libs/db_service.go:37 | A nil value converts to "" and a present value converts to itself. |
| `Kv.Update` | libs/db.go:71-75 | A failed transaction leaves the store as it was. It succeeds exactly when it begins, its body succeeds and the commit succeeds, and then the store is what the body produced. A begin, body or commit failure is returned unchanged. |
| `Kv.View` | libs/db.go:77-81 | A begin failure is returned unchanged; otherwise the body's result is returned. No store comes back, so a read-only transaction changes nothing. |
| `Kv.Open` | libs/db.go:60-63 | After open the "kv" bucket exists. An existing "kv" bucket and every other bucket keep their contents, and a missing "kv" bucket is created empty. |
| `Kv.OpenIdempotent` | libs/db.go:60-63 | Opening an opened store changes nothing. |
| `Registry.NotFound` | libs/db_service.go:17-19 | The missing-bucket error reads "Bucket <name> not found" or "bucket <name> not found". The first letter depends on the service, and the name is embedded verbatim. |
| `Registry.Add` | libs/db_service.go:14-21 | Add succeeds exactly when the transaction begins, the bucket exists, Put succeeds and the commit succeeds. A begin, Put or commit error is returned unchanged, and a missing bucket gives NotFound. Any failure leaves the store unchanged. A success maps that key to the value in that bucket, adds no other key to it, keeps every other key of it and every other bucket exactly as they were, and keeps the set of buckets. |
| `Registry.Get` | libs/db_service.go:24-38 | A begin failure or a missing bucket gives ("", error), with the begin error unchanged or NotFound. Otherwise Get returns the stored value with no error, and "" for a key never added. |
| `Registry.AddThenGet` | libs/db_service.go:14-38 | Round trip: a successful Add(k, v) followed by Get(k) reads (v, nil). |
| `Registry.AddOverwrites` | libs/db_service.go:14-21 | With the bucket present and an engine that does not fail, Add(k, v1) followed by Add(k, v2) leaves the same store as Add(k, v2) alone, and Get(k) reads v2. |
| `Registry.AddLeavesOthers` | libs/db_service.go:14-21 | A successful Add leaves every other key of every bucket reading as before, whichever bucket the reading service is bound to. |
| `Registry.MissingKeyReadsEmpty` | libs/db_service.go:31-37 | A key never added reads ("", nil). This is indistinguishable from the same key added with "". |
| `Registry.FileManagerAddMatchesDbService` | libs/file_manager.go:14-21 | Service.Add leaves the same store as DBService.Add and succeeds exactly when it does. Every outcome is identical except a missing bucket, which Service.Add reports as "bucket <name> not found". |
| `Registry.FileManagerGetMatchesDbService` | libs/file_manager.go:24-38 | Service.Get reads the same value as DBService.Get and fails exactly when it does. Every outcome is identical except a missing bucket, which Service.Get reports as "bucket <name> not found". |
| `Registry.OpenedStoreHasBucket` | libs/db.go:60-63 | After open, a service bound to "kv" never reports its bucket missing. With an engine that does not fail, Add succeeds and Get answers without error. |
| `Registry.LastWriteWins` | libs/db_service.go:14-38 | After any run of successful Adds, Get(k) reads the value of the last write to k. If the run never wrote k, Get(k) reads what it read before. |
| `AddCommand.GetPath` | cmd/add.go:63-79 | 0 or 1 args ask only for the current path, and a failure becomes "failed to get current path". 2 args ask only CheckIfPathExists(args[1]) and accept args[1] only on (true, nil); otherwise the error is "path does not exist". More args ask nothing and fail with "invalid number of arguments". |
| `AddCommand.GetAlias` | cmd/add.go:81-89 | 0 args give the parent-folder name of the given path, asking only for that. 1 or 2 args give args[0] and ask nothing. More args fail with "invalid number of arguments". |
| `AddCommand.DetermineAliasAndPath` | cmd/add.go:49-61 | The path is resolved first and the alias is then resolved from that path: a resolved pair is GetPath's path with GetAlias's alias for it, and the calls are GetPath's followed by GetAlias's. A failure comes from GetPath or GetAlias. A GetPath failure is returned as is, with only GetPath's calls made. |
| `AddCommand.RunE` | cmd/add.go:34-45 | A resolution error is returned as is and Add is not called. Otherwise Add(alias, path) is appended as the last call. The command returns nil exactly when Add does, else exactly "failed to add <path> with alias <alias>", whatever Add's error was. |
| `AddCommand.Execute` | cmd/add.go:33 | For the positional arguments left after flag parsing, the framework turns away more than two before any call. Otherwise the outcome is RunE's. |
| `AddCommand.ResolutionFollowsScenarios` | cmd/add.go:49-89 | Resolution gives (a, p) exactly when the argument-count decision table's row for that arg count says so: 0 args give (parent folder of current path, current path), 1 gives (args[0], current path), 2 give (args[0], args[1]) if that path exists. A failure's message depends on the arg count alone. |
| `AddCommand.ResolutionCalls` | cmd/add.go:49-89 | Exact call order. 0 args ask for the current path, then the parent-folder name of exactly that path, and only if a path came back. 1 arg asks only for the current path. 2 args ask only whether args[1] exists. More args ask nothing. |
| `AddCommand.ResolutionNeverAdds` | cmd/add.go:49-61 | Resolution never calls the registry. |
| `AddCommand.AddCalledOnceIffResolved` | cmd/add.go:34-45 | Add is called exactly once, as the last call with the resolved pair, when resolution succeeds, and never otherwise. The command returns nil exactly when some scenario resolves (a, p) and Add(a, p) succeeds. |
| `AddCommand.TooManyArgumentsAskNothing` | cmd/add.go:63-79 | With more than two args, the framework rejects them first. RunE by itself would also return "invalid number of arguments". Neither calls any collaborator. |
| `AddCommand.CommandRegistersResolvedPair` | cmd/add.go:34-45 | With the registry's Add as the collaborator, the command succeeds exactly when the registry's Add of the resolved pair does. Afterwards Get(alias) reads the resolved path. |

## Left out

- `NewBoltDB` and `getDBPaht` (libs/db.go:32-69) are not modelled. These cover locating the home directory, reading the app name from configuration, creating the directory, opening the file, and panicking on any failure. Only the guarantee that the "kv" bucket exists after open is kept, as `Kv.Open`.
- `DB.Close` (libs/db.go:83-85) is not modelled. It releases a file handle and no modelled operation depends on it.
- The engine's own reasons for a failing `Put`, begin or commit are not derived. Examples are an empty key, an oversized value, a disk error or a closed database. Each is an injected `Faults` entry.
- Concurrency is not modelled: single-writer locking and snapshot isolation between `View` and `Update` belong to the engine. Each transaction here runs alone, and durability is not modelled.
- `libs/file_service.go` is not part of this model. Its three answers are the unconstrained `FileOracle`, and every property holds for any answers. As written, `GetCurrentPath` answers with the directory of the running executable, not the working directory. `GetParentFolderName` answers with the base name of the path's parent, not of the path itself.
- The wording of the framework's `RangeArgs(0, 2)` rejection belongs to the command framework. It is the structured `ArgCount(0, 2, n)`.
- The help text's conditions are not enforced by the code, so the model does not promise them either. The help text (cmd/add.go:28) says that `gs add` with no arguments adds the current directory "if it's a Git repo", using its folder name. Neither the command nor its file-service interface (cmd/add.go:15-19) ever checks for a Git repository, so the no-argument case registers any directory. The alias is whatever `GetParentFolderName` answers for the current path, not the directory's own name. The decision table `Resolves` follows the code.
- Command wiring, help text, configuration loading and the root command (`cmd/root.go`, `main.go`) are not modelled.
- Byte slices are strings. The registry converts with `[]byte(s)` when it writes and `string(b)` when it reads, and the model treats both conversions as exact.
- Registry.Get: the model assumes that the bytes read inside the read-only transaction are still valid after it ends. The source keeps `Get`'s slice past the end of `View` (libs/db_service.go:31 and :37; libs/file_manager.go:31 and :37), although the engine only guarantees that slice while the transaction is open. It is harmless in this sequential command only because nothing remaps the database file between `View` returning and the conversion. The model returns an immutable string from `View` and so does not represent the hazard.
