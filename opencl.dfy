/**
  The OpenCL runtime as the GPU context manager sees it. The runtime is not
  part of this model: its handles are opaque values, and `Driver` stands in
  for it. Every call the manager makes is appended to `log` together with
  the status and handle it returned, so the manager's contracts can say which
  calls it made, in which order, and what it did with each answer. The
  answers themselves come from the driver's configuration (`platforms`,
  `deviceTable`, `failing`); the manager's proofs use only the calls'
  postconditions, so they hold whatever that configuration is.
 */
module OpenCL {

  datatype PlatformId = PlatformId(id: nat)
  datatype DeviceId = DeviceId(id: nat)
  datatype ContextHandle = ContextHandle(id: nat)
  datatype QueueHandle = QueueHandle(id: nat)

  /** cl_int status codes used by the manager (OpenCL 1.x, cl.h). */
  const CL_SUCCESS: int := 0
  const CL_DEVICE_NOT_AVAILABLE: int := -2
  const CL_OUT_OF_RESOURCES: int := -5

  /** cl_device_type bit for GPU devices. */
  const CL_DEVICE_TYPE_GPU: nat := 4

  /** Answer of `OpenCLGetAvailableDevices`: its boolean result and the
      device list it filled in. */
  datatype DeviceQuery = DeviceQuery(ok: bool, devices: seq<DeviceId>)

  /** One call into the runtime, with what it returned. */
  datatype Call =
    | ListPlatforms(platforms: seq<PlatformId>)
    | QueryDevices(platform: PlatformId, deviceType: nat, answer: DeviceQuery)
    | CreateContext(members: seq<DeviceId>, status: int, context: ContextHandle)
    | CreateQueue(inContext: ContextHandle, device: DeviceId, status: int, queue: QueueHandle)
    | ReleaseQueue(released: QueueHandle, status: int)
    | ReleaseContext(releasedContext: ContextHandle, status: int)
  {
    predicate IsRelease() {
      ReleaseQueue? || ReleaseContext?
    }
  }

  class Driver {
    /** Platforms the runtime reports, in enumeration order. */
    const platforms: seq<PlatformId>
    /** Device answer per platform; a platform not in the table fails. */
    const deviceTable: map<PlatformId, DeviceQuery>
    /** Positions in `log` at which a create or release call fails. */
    const failing: set<nat>
    /** Every call made so far, oldest first. */
    var log: seq<Call>

    constructor (platforms: seq<PlatformId>, deviceTable: map<PlatformId, DeviceQuery>, failing: set<nat>)
      ensures this.platforms == platforms && this.deviceTable == deviceTable && this.failing == failing
      ensures log == []
    {
      this.platforms := platforms;
      this.deviceTable := deviceTable;
      this.failing := failing;
      log := [];
    }

    function NextStatus(): int
      reads this
    {
      if |log| in failing then CL_OUT_OF_RESOURCES else CL_SUCCESS
    }

    /** OpenCLGetPlatformsList */
    method GetPlatformsList() returns (ps: seq<PlatformId>)
      modifies this
      ensures log == old(log) + [ListPlatforms(ps)]
    {
      ps := platforms;
      log := log + [ListPlatforms(ps)];
    }

    /** OpenCLGetAvailableDevices */
    method GetAvailableDevices(p: PlatformId, deviceType: nat) returns (ok: bool, ds: seq<DeviceId>)
      modifies this
      ensures log == old(log) + [QueryDevices(p, deviceType, DeviceQuery(ok, ds))]
    {
      var answer := if p in deviceTable then deviceTable[p] else DeviceQuery(false, []);
      ok, ds := answer.ok, answer.devices;
      log := log + [QueryDevices(p, deviceType, answer)];
    }

    /** clCreateContext */
    method CreateContextFor(ds: seq<DeviceId>) returns (c: ContextHandle, status: int)
      modifies this
      ensures log == old(log) + [CreateContext(ds, status, c)]
    {
      c, status := ContextHandle(|log|), NextStatus();
      log := log + [CreateContext(ds, status, c)];
    }

    /** clCreateCommandQueue */
    method CreateCommandQueue(c: ContextHandle, d: DeviceId) returns (q: QueueHandle, status: int)
      modifies this
      ensures log == old(log) + [CreateQueue(c, d, status, q)]
    {
      q, status := QueueHandle(|log|), NextStatus();
      log := log + [CreateQueue(c, d, status, q)];
    }

    /** clReleaseCommandQueue */
    method ReleaseCommandQueue(q: QueueHandle) returns (status: int)
      modifies this
      ensures log == old(log) + [ReleaseQueue(q, status)]
    {
      status := NextStatus();
      log := log + [ReleaseQueue(q, status)];
    }

    /** clReleaseContext */
    method ReleaseContextOf(c: ContextHandle) returns (status: int)
      modifies this
      ensures log == old(log) + [ReleaseContext(c, status)]
    {
      status := NextStatus();
      log := log + [ReleaseContext(c, status)];
    }
  }
}
