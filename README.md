# XRT computation client: worker order, compilation-cache keys and handle lifecycle

This project models the self-contained parts of the x10 XRT computation client
header (`XrtComputationClient`). The client drives a remote accelerator runtime.
It compiles programs and moves tensors to remote workers. It also releases the
remote handles it no longer needs. Three pieces of that header are modelled:

- **Worker identity and order** (`workers.dfy`). A `Worker` is a job name and a
  task number. `operator<` compares task numbers first and names second.
  `Worker` is the key type of `Options::workers_map`, so the order is proved to
  be a strict total order whose equivalence is `operator==`.
  Names are byte strings (`bytes.dfy`). `std::string::compare` is modelled as
  lexicographic order over unsigned bytes. It is proved equal to a
  non-recursive definition of that order.
- **Compilation-cache keys** (`compilation_cache_key.dfy`). A key pairs an
  execution domain with a serialized program, and `operator==` compares both
  fields. Handles are only valid inside their domain, so one program compiled
  for two domains must give two keys. Both entries then live side by side in
  a cache keyed this way.
- **Remote-handle lifecycle** (`handles.dfy`). `XrtHandle` holds an immutable
  `int64` id and a releaser closure. A `std::shared_ptr` owns it. The model
  tracks the live shared pointers and the objects that hold them. When the last
  holder gives up its pointer, the releaser runs exactly once and sends one
  release request to the client.
  `XrtData` has a value exactly when it holds a handle. `XrtComputation`'s
  releaser asks for a compiled-program release of the
  `(compilation device, handle)` pair it was built with.

Integer widths are explicit: task numbers are `Int32` and handle ids are
`Int64`. No arithmetic is done on them, so wrap-around never arises.

## Model

| member | source | states |
|---|---|---|
| `Bytes.Compare` | Sources/x10/xla_client/xrt_computation_client.h:124 | the sign of `std::string::compare` is -1, 0 or 1, and it is 0 exactly when the two strings are equal |
| `Bytes.CompareAntisymmetric` | Sources/x10/xla_client/xrt_computation_client.h:124 | swapping the operands negates the comparison |
| `Bytes.CompareTransitive` | Sources/x10/xla_client/xrt_computation_client.h:124 | if a sorts before b and b before c, then a sorts before c |
| `Bytes.CompareIsLexicographic` | Sources/x10/xla_client/xrt_computation_client.h:124 | `compare < 0` holds iff a is a proper prefix of b, or a has the smaller byte at the first position where they differ (both directions) |
| `Bytes.ProperPrefixBefore` | Sources/x10/xla_client/xrt_computation_client.h:124 | a proper prefix sorts before the longer string |
| `Workers.Less` | Sources/x10/xla_client/xrt_computation_client.h:120-125 | `Worker::operator<` never orders a worker before an equal one, nor before one with a smaller task number (its full meaning is in the lemmas below) |
| `Workers.Equal` | Sources/x10/xla_client/xrt_computation_client.h:127-129 | `Worker::operator==` holds exactly when the two workers are the same value |
| `Workers.LessIrreflexive` | Sources/x10/xla_client/xrt_computation_client.h:120-125 | no worker is ordered before itself |
| `Workers.LessTransitive` | Sources/x10/xla_client/xrt_computation_client.h:120-125 | `a < b` and `b < c` imply `a < c` |
| `Workers.Trichotomy` | Sources/x10/xla_client/xrt_computation_client.h:120-129 | exactly one of `a < b`, `b < a` and `a == b` holds |
| `Workers.EquivalentIffEqual` | Sources/x10/xla_client/xrt_computation_client.h:120-129 | two workers where neither is ordered before the other are `==`, and the converse also holds |
| `Workers.TaskNoFirst` | Sources/x10/xla_client/xrt_computation_client.h:121-124 | a smaller task number precedes whatever the names, and a worker that precedes never has the larger task number. With equal task numbers, the names decide in lexicographic byte order |
| `Workers.LessIsStrictTotalOrder` | Sources/x10/xla_client/xrt_computation_client.h:148 | over all workers, `<` is irreflexive, transitive and total up to equality, as the key order of `workers_map` must be |
| `CompilationCacheKeys.KeyEqual` | Sources/x10/xla_client/xrt_computation_client.h:222-225 | `CompilationCacheKey::operator==` holds exactly when the two keys are the same value |
| `CompilationCacheKeys.KeysSeparateDomainsAndPrograms` | Sources/x10/xla_client/xrt_computation_client.h:203-225 | a corollary of `KeyEqual`: two keys are equal iff both the domains and the serialized programs are equal, so one program under two domains gives two keys |
| `CompilationCacheKeys.SameProgramTwoDomains` | Sources/x10/xla_client/xrt_computation_client.h:491-492 | in a cache keyed by these keys, one program cached for two domains keeps both entries, and removing one leaves the other |
| `Handles.XrtHandle.constructor` | Sources/x10/xla_client/xrt_computation_client.h:63-64 | a new handle keeps the given id and releaser, has exactly one owner (the object that holds it) and has not released anything |
| `Handles.XrtHandle.Share` | Sources/x10/xla_client/xrt_computation_client.h:72 | copying a live `XrtHandlePtr` into a new owner adds exactly that owner and releases nothing |
| `Handles.XrtHandle.Drop` | Sources/x10/xla_client/xrt_computation_client.h:66 | only a current owner can drop its pointer, and it is then removed from the owners. Destroying the last owner runs the releaser once and appends exactly its request to the client's list. Destroying any other owner appends nothing. `Valid` keeps the use count equal to the number of owners, and the releaser runs at 0 while owners remain and at 1 afterwards |
| `Handles.XrtData.Placeholder` | Sources/x10/xla_client/xrt_computation_client.h:75-76 | data built from a device and a shape alone has no value (`HasValue` is false) |
| `Handles.XrtData.HasValue` | Sources/x10/xla_client/xrt_computation_client.h:85 | data that has a value is a current owner of a live handle |
| `Handles.XrtData.GetHandle` | Sources/x10/xla_client/xrt_computation_client.h:79 | the returned id is the one the handle's data release is addressed to, on the data's device |
| `Handles.XrtData.constructor` | Sources/x10/xla_client/xrt_computation_client.h:77 | data built with a handle has a value, and `GetHandle` returns that id. The data is the handle's only owner, and the releaser asks that client for a data release of `(device, handle)` |
| `Handles.XrtData.Destroy` | Sources/x10/xla_client/xrt_computation_client.h:85-87 | destroying data gives up its share of the handle: the data leaves the owners and has no value afterwards. If it was the last owner, exactly one data release for `(device, id)` reaches the client. Destroying it again releases nothing |
| `Handles.XrtComputation.constructor` | Sources/x10/xla_client/xrt_computation_client.h:91-100 | the computation keeps its program, shape and devices, and `GetHandle` returns the given id. It is the handle's only owner, and the releaser targets the given client and compilation device |
| `Handles.XrtComputation.GetHandle` | Sources/x10/xla_client/xrt_computation_client.h:102 | the returned id is the one the compiled-program release is addressed to, on the compilation device it was constructed with |
| `Handles.XrtComputation.Destroy` | Sources/x10/xla_client/xrt_computation_client.h:96-104 | a live computation gives up its share and is destroyed; it cannot be destroyed twice. If it was the last owner, the client receives exactly one compiled-program release for `(compilation device, GetHandle())` |
| `Handles.SharedDataReleasedOnce` | Sources/x10/xla_client/xrt_computation_client.h:66-72 | with two owners of one data handle, destroying the first requests no release, and destroying the second requests exactly one |

## Left out

- `Compile`, `ExecuteComputation`, `ExecuteReplicated`, `ExecuteParallel`, `ExecuteChained` (native and split), `TransferFromServerImpl`, `TransferToServerInternal` and `DeconstructTuple`: only their declarations are visible, and they issue remote XRT/TensorFlow calls.
- Session lookups (`GetSessionFor*`), the session caches, the `Get*Node` graph builders, `CreateExecuteOps`, `RunComputations` and `GetComputationResults`: these build foreign TensorFlow graphs, and no bodies are visible.
- `HandleReleaser`, `StartHandleReleaser`, `ReleaseHandles`, `ReleaseHandle`, `ReleaseXrtData`, `ReleaseXrtComputation`, the lock and the `released_*_handles_` vectors: a background thread and a mutex with hidden bodies. The model stops at the call into the client, recorded in `XrtComputationClient.releaseRequests`.
- `Handles.XrtData.constructor`: the body of the `(device, shape, handle)` constructor is not visible. The model assumes its releaser asks for a data-handle release of `(device, handle)`, by analogy with `XrtComputation`.
- `XrtData::Assign`: its body is not visible.
- `XrtHandle.handle`: the id is a public non-const field in C++ (`int64_t handle;`) but a constant here. No visible code reassigns it, and the handle's releaser captures the id at construction.
- Owners of a handle are tracked as a ghost set of objects. Shared pointers held by something other than an `XrtData` or `XrtComputation`, such as a temporary copy, are owners only if `Share` is called with them.
- `XrtData::GetOpaqueHandle` returns `get_handle()` and is not modelled separately.
- `CompilationCacheKey::Hash`: it calls foreign hashers (`PartialHasher`, `DataHash`, `HashCombine`), so it is omitted.
- `util::Cache` eviction and capacity: its implementation is not visible. `SameProgramTwoDomains` uses a plain map.
- Device id parsing, `ParseWorker`, `GetEffectiveDevice`, `SwiftDeviceToXrtDevice`, worker lookup, mesh coordinates, topology, mesh service, GPU setup, config protos, metrics and the RNG seed: these are I/O or foreign services without visible bodies.
- `Options`: it is configuration data only. The invariant that every local device has a `global_device_map` entry is kept by code that is not part of this model.
- `Bytes.Compare`: models only the sign of `std::string::compare`, not the magnitude of the integer it returns.
- Shapes, program shapes and XLA computations are opaque stand-ins. Element types, layouts and tuple shapes are not modelled.
- Concurrency: the shared-pointer count is updated atomically in C++. Here it is modelled sequentially.
- `Sources/x10/xla_tensor/softmax_builder.h`: it only declares softmax builders over a foreign XLA builder library.
