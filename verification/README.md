# Kanastar task stores and task records, in Dafny

Kanastar is a small container orchestrator. A manager accepts tasks, schedules them on
workers and keeps two tables: one of tasks, and one of task events. A task event is a
desired state change that carries a copy of its task. This project models the in-memory
backend of those tables and the task records they hold:

- `Tasks` (task/task.go): the `Task`, `TaskEvent` and `Config` records, and `NewConfig`. This
  is the projection from a task to the settings its container is created from.
- `Stores` (store/store.go): the classes `InMemoryTaskStore` and `InMemoryTaskEventStore`.
  Each holds a map from a string key to a pointer to the record, and has the four operations
  of the store interface (`Put`, `Get`, `List`, `Count`). Go's `interface{}` argument is the
  datatype `Value`, told apart by dynamic type, so `Put`'s type check and its error are explicit.
  A typed nil pointer passes Go's type assertion, so `Put` accepts it and stores it as `Nil`.
- `Tables`: what it means to list a map's values in an unspecified order, as Go's `range`
  over a map does. It holds the lemmas that every such listing has one item per key, contains
  each stored value exactly as often as keys hold it, and is a permutation of every other listing.
- `StoreClients`: what a caller gets by combining the operations (round trips, empty new
  stores, `List` against `Count`, an event keeping its task snapshot), proved from the
  operations' contracts alone.
- `Wrappers`: `Option`, which stands for Go's `error` result (`None` is a nil error).

Facts about the code that the model keeps:

- The Go `Task` has no environment field, so `NewConfig` always leaves `Env` empty.
- The in-memory `List` and `Count` never fail.
- `Put` takes any value and checks its dynamic type, and the model keeps that check.

## Model

| member | source | states |
|---|---|---|
| `Tasks.NewConfig` | task/task.go:71-81 | The config carries the task's name, image, CPU, memory, disk, exposed ports and restart policy unchanged. It sets no command and no environment, and attaches no standard stream, whatever the task holds |
| `Tasks.NewConfigUnique` | task/task.go:45-58 | Those two properties determine the config completely: a config has them for task `t` exactly when it equals `NewConfig(t)` |
| `Tasks.NewConfigDeterminedBySpec` | task/task.go:71-81 | Two tasks get equal configs if and only if they agree on the seven copied fields |
| `Tasks.NewConfigIgnoresRuntimeFields` | task/task.go:19-36 | Changing a task's ID, container ID, state, host ports, port bindings, times, health check or restart count leaves its config unchanged |
| `Stores.InMemoryTaskStore.constructor` | store/store.go:84-88 | A new task table is empty |
| `Stores.InMemoryTaskStore.Put` | store/store.go:131-140 | A `*task.Task` (even a nil one) is upserted under the key, and the error is nil. Every other key keeps its entry. The size grows by one exactly when the key was new. Any other value returns a "not a task" error and leaves the table unchanged |
| `Stores.InMemoryTaskStore.Get` | store/store.go:194-202 | A present key yields the stored pointer and no error. A missing key yields an untyped nil and a not-found error. The table is not modified |
| `Stores.InMemoryTaskStore.List` | store/store.go:258-264 | Never fails. The result lists the stored pointers along an order that visits each key once. Its length is the table's size, and each pointer occurs as often as there are keys holding it |
| `Stores.InMemoryTaskStore.Count` | store/store.go:309-311 | Never fails, and returns the number of keys |
| `Stores.InMemoryTaskEventStore.constructor` | store/store.go:90-94 | A new event table is empty |
| `Stores.InMemoryTaskEventStore.Put` | store/store.go:142-151 | Same as the task table's `Put`, over `*task.TaskEvent`, with a "not a task event" error |
| `Stores.InMemoryTaskEventStore.Get` | store/store.go:204-212 | Same as the task table's `Get`, over event pointers |
| `Stores.InMemoryTaskEventStore.List` | store/store.go:266-272 | Same as the task table's `List`, over event pointers |
| `Stores.InMemoryTaskEventStore.Count` | store/store.go:313-315 | Never fails, and returns the number of keys |
| `Tables.ListingLength` | store/store.go:258-264 | A listing that visits every key exactly once has as many items as the map has keys |
| `Tables.ListingOccurrences` | store/store.go:258-264 | In such a listing, each value occurs exactly as many times as there are keys holding it |
| `Tables.ListingMembership` | store/store.go:266-272 | A value is listed if and only if the map holds it under some key |
| `Tables.ListingsArePermutations` | store/store.go:258-272 | Any two listings of one map are permutations of each other, so only the order is unspecified |
| `Tables.UpsertEffect` | store/store.go:138 | Upserting adds an entry exactly when the key was absent. The key then maps to the new value, and every other key keeps its membership and value |
| `StoreClients.TaskPutThenGet` | store/store.go:131-202 | `Get` after `Put` of a task pointer returns that same pointer with no error |
| `StoreClients.EventPutThenGet` | store/store.go:142-212 | `Get` after `Put` of an event pointer returns that same pointer with no error |
| `StoreClients.NewStoresAreEmpty` | store/store.go:84-94 | `Count` on freshly constructed task and event tables is 0 |
| `StoreClients.ListAgreesWithCount` | store/store.go:258-311 | `List` and `Count` on the same table agree on its size, and every listed pointer is a stored one |
| `StoreClients.EventKeepsTaskSnapshot` | task/task.go:38-43 | A `Put` on the task table leaves a stored event, and the task it carries, as they were |

## Left out

- The bolt-backed `TaskStore` and `EventStore`, with `CreateBucket` and `Close`: they wrap
  boltdb transactions and JSON encoding, neither of which is part of this model.
- The Docker wrapper (`NewDocker`, `Run`, `Stop`, `Inspect`): these are calls into the
  Docker client, plus I/O.
- The manager command and the run command: flag parsing, goroutines, the HTTP API, file
  reads and an HTTP POST. The manager package they call is not part of this model.
- The scheduler, the task state machine and the manager's loops: their source is not part
  of this model.
- `State`, `Uuid`, `Time` and the float64 `Cpu` are opaque types. They are only carried and
  copied, never computed on.
- Pointer aliasing: the tables hold Go pointers, and a caller can change a stored record
  through the pointer it passed to `Put` or got from `Get`. The model stores records by value.
- Shared Go maps: Go maps are reference values, so copying a record shares its maps.
  `Tasks.NewConfig` gives the config the task's own `ExposedPorts` map (task/task.go:74).
  Copying a `Task` into `TaskEvent.Task` (task/task.go:42) shares its `ExposedPorts`,
  `HostPorts` and `PortBindings` with the original, so the Go snapshot is shallow. In the
  model these fields are `set`/`map` values, and every copy is independent.
- StoreClients.EventKeepsTaskSnapshot: proves only that a `Put` on the task table does not
  touch the event table. That an event holds its own copy of the task comes from the
  `task: Task` field of the `TaskEvent` datatype and is not proved.
- Concurrency: the Go maps have no locking. The model is sequential.
- Error texts: errors are modelled by kind and argument (`NotATask`, `NotATaskEvent`,
  `KeyNotFound`), not as formatted strings. The event table's not-found message says
  "task with key", the same as the task table's.
- Tasks.NewConfig: takes a `Task` value, so a nil `*Task` argument, on which the Go
  function panics, cannot be expressed.
- Stores.InMemoryTaskStore.List: returns a sequence. It does not distinguish Go's nil
  slice (for an empty table) from an empty one. The same holds for
  Stores.InMemoryTaskEventStore.List.
- Tasks.NewConfig: gives `Cmd` and `Env` the value `[]`. Go leaves them as nil slices,
  and the model does not distinguish nil from empty.
