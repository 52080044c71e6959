/**
 * The collaborators of the MIGraphX adapter that live outside src/migraphx/interface.cpp:
 * the backend identity tag, device buffers, the ONNX Runtime allocator, generation
 * parameters, the CPU search strategies and the CPU device adapter (the fallback).
 * They are kept abstract: the CPU adapter's allocation and wrapping are arbitrary
 * functions, constrained only by the contract that the fallback promises.
 */
module Devices {
  import opened Wrappers

  /** Backend identity (only the two values this model needs). */
  datatype DeviceType = CPU | MIGraphX

  /** A raw host address (`void*`). */
  type Pointer = nat

  /** What a `std::shared_ptr<DeviceBuffer>` exposes: where the bytes are, how many, and who frees them. */
  datatype DeviceBuffer = DeviceBuffer(data: Pointer, size: nat, ownsMemory: bool)

  /** Failure of the fallback's allocation (a thrown `std::bad_alloc` in C++). */
  datatype AllocError = OutOfMemory

  /** `Ort::Allocator`: only its identity matters here, so it is an object without state. */
  class Allocator {}

  /** The ONNX Runtime C API table handed to `InitOrt`; its contents are never read. */
  datatype OrtApi = OrtApi(version: nat)

  /** `GeneratorParams`: passed unchanged to the search constructors, never inspected by the adapter. */
  datatype GeneratorParams = GeneratorParams(numBeams: nat, maxLength: nat, batchSize: nat)

  /** `GreedySearch_Cpu`: a greedy decoder built from the generation parameters. */
  class GreedySearchCpu {
    const params: GeneratorParams

    constructor (params: GeneratorParams)
      ensures this.params == params
    {
      this.params := params;
    }
  }

  /** `BeamSearch_Cpu`: a beam decoder built from the generation parameters. */
  class BeamSearchCpu {
    const params: GeneratorParams

    constructor (params: GeneratorParams)
      ensures this.params == params
    {
      this.params := params;
    }
  }

  /**
   * The CPU device adapter, the always-present fallback. Its implementation is not part
   * of this model: its allocation and wrapping behaviour are the arbitrary functions
   * it is built from, and Valid() is the contract every CPU adapter keeps.
   */
  class CpuInterface {
    const allocator: Allocator
    const allocate: nat -> Result<DeviceBuffer, AllocError>
    const wrap: (Pointer, nat) -> DeviceBuffer

    constructor (allocator: Allocator,
                 allocate: nat -> Result<DeviceBuffer, AllocError>,
                 wrap: (Pointer, nat) -> DeviceBuffer)
      ensures this.allocator == allocator && this.allocate == allocate && this.wrap == wrap
    {
      this.allocator := allocator;
      this.allocate := allocate;
      this.wrap := wrap;
    }

    /**
     * The fallback's contract: a successful allocation of N bytes is an owning buffer
     * of exactly N bytes; wrapping (p, N) exposes exactly the region at p without
     * copying it or taking ownership.
     */
    ghost predicate Valid() {
      (forall n: nat :: allocate(n).Success? ==>
         allocate(n).value.size == n && allocate(n).value.ownsMemory) &&
      (forall p: Pointer, n: nat ::
         wrap(p, n) == DeviceBuffer(p, n, false))
    }

    function GetType(): (t: DeviceType)
      ensures t == CPU
    {
      CPU
    }

    function GetAllocator(): (a: Allocator)
      ensures a == allocator
    {
      allocator
    }

    function AllocateBase(size: nat): (r: Result<DeviceBuffer, AllocError>)
      requires Valid()
      ensures r.Success? ==> r.value.size == size && r.value.ownsMemory
    {
      allocate(size)
    }

    function WrapMemoryBase(p: Pointer, size: nat): (b: DeviceBuffer)
      requires Valid()
      ensures b.data == p && b.size == size && !b.ownsMemory
    {
      wrap(p, size)
    }
  }
}
