/**
 * The MIGraphX device adapter (`Generators::MIGraphX::InterfaceImpl`) and the
 * process-wide accessor that hands it out (`GetMIGraphXInterface`).
 *
 * The adapter implements nothing natively but its identity: memory and search
 * machinery come from the CPU adapter, whose results it returns unchanged.
 */
module MIGraphX {
  import opened Wrappers
  import opened Devices

  class InterfaceImpl {
    /** The fallback adapter every delegated call goes to (`GetCpuInterface()`). */
    const cpu: CpuInterface

    ghost predicate Valid() {
      cpu.Valid()
    }

    constructor (cpu: CpuInterface)
      requires cpu.Valid()
      ensures this.cpu == cpu && Valid()
    {
      this.cpu := cpu;
    }

    /** The adapter identifies itself as MIGraphX, never as the CPU it delegates to. */
    function GetType(): (t: DeviceType)
      ensures t == MIGraphX && t != cpu.GetType()
    {
      MIGraphX
    }

    /** Allocation always goes through the CPU adapter, so no caller may bind the runtime here. */
    method InitOrt(api: OrtApi, allocator: Allocator)
      requires false
    {
    }

    /** The allocator is the CPU adapter's own object, not a copy. */
    function GetAllocator(): (a: Allocator)
      ensures a == cpu.GetAllocator() && a == cpu.allocator
    {
      cpu.GetAllocator()
    }

    /**
     * Exactly the CPU adapter's answer for the same size: the same buffer on success,
     * the same error exactly when the CPU adapter fails.
     */
    function AllocateBase(size: nat): (r: Result<DeviceBuffer, AllocError>)
      requires Valid()
      ensures r == cpu.allocate(size)
      ensures r.Failure? <==> cpu.allocate(size).Failure?
      ensures r.Success? ==> r.value.size == size && r.value.ownsMemory
    {
      cpu.AllocateBase(size)
    }

    /** Exactly the CPU adapter's view of the region: no copy, no ownership taken. */
    function WrapMemoryBase(p: Pointer, size: nat): (b: DeviceBuffer)
      requires Valid()
      ensures b == cpu.wrap(p, size)
      ensures b.data == p && b.size == size && !b.ownsMemory
    {
      cpu.WrapMemoryBase(p, size)
    }

    /** A new CPU greedy decoder for every call. */
    method CreateGreedy(params: GeneratorParams) returns (s: GreedySearchCpu)
      ensures fresh(s) && s.params == params
    {
      s := new GreedySearchCpu(params);
    }

    /** A new CPU beam decoder for every call. */
    method CreateBeam(params: GeneratorParams) returns (s: BeamSearchCpu)
      ensures fresh(s) && s.params == params
    {
      s := new BeamSearchCpu(params);
    }

    /** No device-side work of its own to wait for: returns at once and changes nothing. */
    method Synchronize()
      ensures unchanged(this)
    {
    }
  }

  /**
   * The function-local static behind `GetMIGraphXInterface`: empty until the first
   * call, then holding the one adapter for the rest of the process.
   */
  class Registry {
    const cpu: CpuInterface
    var device: InterfaceImpl?

    ghost predicate Valid()
      reads this
    {
      cpu.Valid() && (device != null ==> device.cpu == cpu)
    }

    constructor (cpu: CpuInterface)
      requires cpu.Valid()
      ensures this.cpu == cpu && device == null && Valid()
    {
      this.cpu := cpu;
      device := null;
    }

    /** The first call constructs the adapter; every call returns that same adapter. */
    method GetMIGraphXInterface() returns (d: InterfaceImpl)
      requires Valid()
      modifies this
      ensures Valid() && device == d && d.Valid()
      ensures old(device) == null ==> fresh(d) && d.cpu == cpu
      ensures old(device) != null ==> d == old(device)
    {
      if device == null {
        device := new InterfaceImpl(cpu);
      }
      d := device;
    }

    /** Two calls in a row, from any starting state, see one and the same adapter. */
    method GetTwice() returns (d1: InterfaceImpl, d2: InterfaceImpl)
      requires Valid()
      modifies this
      ensures Valid() && d1 == d2 && device == d1
      ensures old(device) != null ==> d1 == old(device)
    {
      d1 := GetMIGraphXInterface();
      d2 := GetMIGraphXInterface();
    }
  }
}
