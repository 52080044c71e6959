# MIGraphX device interface

A model of the MIGraphX backend glue of the generation runtime
(`src/migraphx/interface.cpp`). It has three parts:

- **The device adapter** `MIGraphX.InterfaceImpl`. It reports its own identity,
  `MIGraphX`. It forbids runtime binding: `InitOrt` has a precondition of `false`,
  standing for the source's `assert(false)`. Allocation, memory wrapping and
  allocator access go to the CPU adapter, and the adapter returns exactly what the
  CPU adapter returns. It builds a new CPU greedy or beam search object on each
  request. `Synchronize` does nothing.
- **The registry** `MIGraphX.Registry`. It models the function-local static behind
  `GetMIGraphXInterface`. The slot is empty until the first call. The first call
  fills it, and every call returns the object in the slot.
- **The provider-option injector** `ProviderOptionsInjector.AppendProviderOptions`.
  It refuses a record whose name is not `"MIGraphX"`, with an error whose message
  ends in the offending name. Otherwise it flattens the ordered (key, value) pairs
  into two parallel sequences with a loop. It then records one
  `AppendExecutionProvider(name, keys, values, count)` call on the session options.
  The pure function `AppendRequest` says what that call is. `Keys`, `Values` and
  their inverse `Zip` show that nothing is dropped, reordered or changed.

The CPU adapter (`Devices.CpuInterface`) is not part of this model. It is built from
arbitrary allocation and wrapping functions and an allocator object. Its
`Valid()` predicate is the contract the fallback keeps: a successful allocation of N
bytes owns exactly N bytes, and wrapping `(p, N)` is a non-owning view of exactly
that region. The MIGraphX adapter inherits these guarantees because it passes the
CPU results through unchanged.

The source calls the global `GetCpuInterface()` on every delegated call. That
accessor always returns the same CPU adapter, so the model hands the CPU adapter to
the MIGraphX adapter once, when it is built, and keeps it in a constant field.

## Model

| member | source | states |
|---|---|---|
| MIGraphX.InterfaceImpl.constructor | src/migraphx/interface.cpp:16-17 | the new adapter delegates to the given CPU adapter and keeps its contract |
| MIGraphX.InterfaceImpl.GetType | src/migraphx/interface.cpp:19 | the identity is always `MIGraphX`, never the CPU identity of the fallback, and reading it changes nothing |
| MIGraphX.InterfaceImpl.InitOrt | src/migraphx/interface.cpp:21-24 | no caller may ever invoke runtime binding, whatever the arguments (precondition `false`) |
| MIGraphX.InterfaceImpl.GetAllocator | src/migraphx/interface.cpp:26-28 | the allocator is the CPU adapter's own allocator object |
| MIGraphX.InterfaceImpl.AllocateBase | src/migraphx/interface.cpp:30-32 | the result equals the CPU adapter's for the same size; it fails exactly when the CPU fails; on success the buffer owns exactly `size` bytes |
| MIGraphX.InterfaceImpl.WrapMemoryBase | src/migraphx/interface.cpp:34-36 | the result equals the CPU adapter's for the same arguments, a view of exactly `size` bytes at `p` that does not own them |
| MIGraphX.InterfaceImpl.CreateGreedy | src/migraphx/interface.cpp:38-40 | each call returns a newly allocated CPU greedy search built from the given parameters |
| MIGraphX.InterfaceImpl.CreateBeam | src/migraphx/interface.cpp:42-44 | each call returns a newly allocated CPU beam search built from the given parameters |
| MIGraphX.InterfaceImpl.Synchronize | src/migraphx/interface.cpp:46 | changes nothing (no modifies clause; the adapter is unchanged) |
| MIGraphX.Registry.constructor | src/migraphx/interface.cpp:52 | before the first call the static slot is empty |
| MIGraphX.Registry.GetMIGraphXInterface | src/migraphx/interface.cpp:51-54 | the first call builds a new adapter over the CPU fallback and stores it; later calls return the stored adapter |
| MIGraphX.Registry.GetTwice | src/migraphx/interface.cpp:51-54 | two calls from any state return the same adapter, which is the stored one |
| ProviderOptionsInjector.Keys | src/migraphx/interface.cpp:64-65 | one key per pair, in order: the i-th key is the i-th pair's first string |
| ProviderOptionsInjector.Values | src/migraphx/interface.cpp:64-66 | one value per pair, in order: the i-th value is the i-th pair's second string |
| ProviderOptionsInjector.ZipKeysValues | src/migraphx/interface.cpp:63-67 | putting the keys and values back together gives back the original pairs, so the flattening is exact |
| ProviderOptionsInjector.AppendRequest | src/migraphx/interface.cpp:56-70 | fails exactly when the name is not `"MIGraphX"`, with the error prefix followed by the offending name; otherwise the call carries the name `"MIGraphX"`, count = number of pairs = length of keys = length of values, and each key and value at its pair's index |
| ProviderOptionsInjector.AppendRequestInjective | src/migraphx/interface.cpp:63-69 | two records that lead to the same append call are the same record |
| ProviderOptionsInjector.TwoPairsExample | src/migraphx/interface.cpp:63-69 | the pairs `("a","1"), ("b","2")` reach the runtime as keys `["a","b"]`, values `["1","2"]`, count 2 |
| ProviderOptionsInjector.WrongProviderExample | src/migraphx/interface.cpp:59-61 | a record named `"CPU"` is refused with an error naming `"CPU"` |
| ProviderOptionsInjector.SessionOptions.AppendExecutionProvider | src/migraphx/interface.cpp:69 | each call is recorded once, after the earlier ones; the key and value arrays each hold `count` strings |
| ProviderOptionsInjector.AppendProviderOptions | src/migraphx/interface.cpp:56-70 | fails exactly when the name is not `"MIGraphX"`, and then the session is unchanged; otherwise it appends exactly the call `AppendRequest` describes; `config` plays no part in the outcome |

## Left out

- The CPU adapter's allocator, `DeviceBuffer`, `GreedySearch_Cpu` and `BeamSearch_Cpu` are foreign code. The model keeps them abstract and only passes them through.
- MIGraphX.InterfaceImpl.AllocateBase: the CPU allocation is a function of the size alone, so two allocations of the same size are equal values here. Buffer identity, shared ownership and release of the buffer are not modelled.
- MIGraphX.InterfaceImpl.InitOrt: the model forbids the call statically. A build with `NDEBUG`, where `assert(false)` compiles to nothing and the call returns, is not modelled.
- ProviderOptionsInjector.SessionOptions.AppendExecutionProvider: ONNX Runtime's own handling of the call (its validation of provider names and option keys) is not modelled. Only the arguments are recorded.
- The `c_str()` pointers, their lifetime and null termination are not modelled. Keys and values are the strings themselves.
- Thread safety of the lazy static initialisation is guaranteed by the C++ runtime. The registry is modelled sequentially.
- `size_t` is modelled as an unbounded `nat`. The adapter does no arithmetic on sizes, so no wrap-around can arise.
- `DeviceType` has only the two values this model needs, `CPU` and `MIGraphX`. The other backends are not part of this model.
- `examples/python/migraphx_example.py` is a console demo (input, printing, model loading and streaming decode). It is not part of this model.
- `src/migraphx/interface.h` only declares the two free functions modelled above.
