/**
  ITK's GPU context manager (`itk::GPUContextManager`): a process-wide
  singleton that, when first asked for, gathers the GPU devices of every
  OpenCL platform, creates one context over all of them and one command
  queue per device, and hands out queues and device ids by index until it is
  destroyed.

  `OpenCLCheckError` raises an exception on any status other than
  CL_SUCCESS; here it is `Check`, whose `Failed` result carries the status
  and the source line of the check, and an operation that receives a
  `Failed` stops there and returns it, as the exception would leave it.
 */
module GPUCommon {
  import opened OpenCL

  datatype Status = Ok | Failed(code: int, line: nat)

  /** OpenCLCheckError(code, __FILE__, line, ...) */
  function Check(code: int, line: nat): (st: Status)
    ensures st.Ok? <==> code == CL_SUCCESS
    ensures st.Failed? ==> st.code == code && st.line == line
  {
    if code == CL_SUCCESS then Ok else Failed(code, line)
  }

  // ---------------------------------------------------------------------
  // Device aggregation

  /** What one platform adds to the device list: its devices when the query
      succeeded and found some, nothing otherwise. */
  function Contribution(q: DeviceQuery): seq<DeviceId> {
    if q.ok && |q.devices| > 0 then q.devices else []
  }

  /** The device list built from the platforms' answers, in platform order. */
  function Aggregate(answers: seq<DeviceQuery>): seq<DeviceId> {
    if answers == [] then []
    else Aggregate(answers[..|answers| - 1]) + Contribution(answers[|answers| - 1])
  }

  /** Aggregation is concatenation: the answers of earlier platforms come
      first, each platform's devices stay in their own order. */
  lemma {:induction false} AggregateAppend(a: seq<DeviceQuery>, b: seq<DeviceQuery>)
    ensures Aggregate(a + b) == Aggregate(a) + Aggregate(b)
  {
    if b == [] {
      assert a + b == a;
    } else {
      assert (a + b)[..|a + b| - 1] == a + b[..|b| - 1];
      AggregateAppend(a, b[..|b| - 1]);
    }
  }

  /** The list is empty exactly when no platform's query both succeeded and
      returned a device. */
  lemma {:induction false} AggregateEmpty(answers: seq<DeviceQuery>)
    ensures Aggregate(answers) == [] <==>
            forall k :: 0 <= k < |answers| ==> !answers[k].ok || answers[k].devices == []
  {
    if answers != [] {
      var init := answers[..|answers| - 1];
      AggregateEmpty(init);
      assert forall k :: 0 <= k < |init| ==> init[k] == answers[k];
    }
  }

  /** A device is in the list exactly when some successful query returned it. */
  lemma {:induction false} AggregateMembers(answers: seq<DeviceQuery>, d: DeviceId)
    ensures d in Aggregate(answers) <==>
            exists k :: 0 <= k < |answers| && answers[k].ok && d in answers[k].devices
  {
    if answers != [] {
      var init := answers[..|answers| - 1];
      AggregateMembers(init, d);
      if d in Aggregate(answers) && d !in Aggregate(init) {
        assert d in Contribution(answers[|answers| - 1]);
      }
      if exists k :: 0 <= k < |answers| && answers[k].ok && d in answers[k].devices {
        var k :| 0 <= k < |answers| && answers[k].ok && d in answers[k].devices;
        if k < |init| {
          assert init[k] == answers[k];
        }
      }
    }
  }

  // ---------------------------------------------------------------------
  // The calls the manager makes, as they appear in the driver's log

  function QueryLog(ps: seq<PlatformId>, answers: seq<DeviceQuery>): (r: seq<Call>)
    requires |ps| == |answers|
    ensures |r| == |ps|
  {
    seq(|ps|, k requires 0 <= k < |ps| => QueryDevices(ps[k], CL_DEVICE_TYPE_GPU, answers[k]))
  }

  function QueueLog(c: ContextHandle, ds: seq<DeviceId>, qs: seq<QueueHandle>, ss: seq<int>): (r: seq<Call>)
    requires |ds| == |qs| == |ss|
    ensures |r| == |ds|
  {
    seq(|ds|, k requires 0 <= k < |ds| => CreateQueue(c, ds[k], ss[k], qs[k]))
  }

  function ReleaseLog(qs: seq<QueueHandle>, ss: seq<int>): (r: seq<Call>)
    requires |qs| == |ss|
    ensures |r| == |qs|
  {
    seq(|qs|, k requires 0 <= k < |qs| => ReleaseQueue(qs[k], ss[k]))
  }

  /** `n` success statuses. */
  function Successes(n: nat): (ss: seq<int>)
    ensures |ss| == n && forall k :: 0 <= k < n ==> ss[k] == CL_SUCCESS
  {
    seq(n, k => CL_SUCCESS)
  }

  /** Everything construction asks of the driver: the platform list, one
      device query per platform, then (if any device was found) the context,
      then (if the context was created) the queues, up to the first failure. */
  function ConstructionLog(ps: seq<PlatformId>, answers: seq<DeviceQuery>, ds: seq<DeviceId>,
                           ctxStatus: int, c: ContextHandle, qs: seq<QueueHandle>, ss: seq<int>): seq<Call>
    requires |ps| == |answers| && |ss| <= |ds| && |ss| <= |qs|
  {
    [ListPlatforms(ps)] + QueryLog(ps, answers) +
    if ds == [] then []
    else [CreateContext(ds, ctxStatus, c)] +
         if ctxStatus != CL_SUCCESS then [] else QueueLog(c, ds[..|ss|], qs[..|ss|], ss)
  }

  /** What construction did, read off the driver's log from `before` to
      `after`: the calls of `ConstructionLog`, a device list that is the
      aggregate of the platforms' answers, and a status that is the first
      failing check (no device at line 68, the context at line 73, a queue
      at line 84) or `Ok` when every queue was created. */
  ghost predicate ConstructionOutcome(before: seq<Call>, after: seq<Call>, st: Status,
                                      ps: seq<PlatformId>, answers: seq<DeviceQuery>, ds: seq<DeviceId>,
                                      ctxStatus: int, c: ContextHandle, qs: seq<QueueHandle>, ss: seq<int>)
  {
    && |answers| == |ps| && |ss| <= |ds| && |ss| <= |qs|
    && ds == Aggregate(answers)
    && after == before + ConstructionLog(ps, answers, ds, ctxStatus, c, qs, ss)
    && (ds == [] ==> st == Failed(CL_DEVICE_NOT_AVAILABLE, 68))
    && (ds != [] && ctxStatus != CL_SUCCESS ==> st == Failed(ctxStatus, 73))
    && (ds != [] && ctxStatus == CL_SUCCESS ==>
          && 0 < |ss| && st == Check(ss[|ss| - 1], 84)
          && (forall k :: 0 <= k < |ss| - 1 ==> ss[k] == CL_SUCCESS)
          && (ss[|ss| - 1] == CL_SUCCESS ==> |ss| == |ds|))
  }

  /** The queue phase completes the log of a construction whose context was
      created. */
  lemma QueuePhaseLog(before: seq<Call>, mid: seq<Call>, after: seq<Call>,
                      ps: seq<PlatformId>, answers: seq<DeviceQuery>, ds: seq<DeviceId>,
                      c: ContextHandle, qs: seq<QueueHandle>, ss: seq<int>)
    requires |answers| == |ps| && ds != []
    requires mid == before + [ListPlatforms(ps)] + QueryLog(ps, answers) + [CreateContext(ds, CL_SUCCESS, c)]
    requires |qs| == |ds| && |ss| <= |ds|
    requires after == mid + QueueLog(c, ds[..|ss|], qs[..|ss|], ss)
    ensures after == before + ConstructionLog(ps, answers, ds, CL_SUCCESS, c, qs, ss)
  {
  }

  /** A queue phase in which every creation succeeded leaves each queue's
      creation, for its device, in the log. */
  lemma QueuesRecorded(mid: seq<Call>, after: seq<Call>, c: ContextHandle,
                       ds: seq<DeviceId>, qs: seq<QueueHandle>, ss: seq<int>)
    requires |qs| == |ds| == |ss|
    requires forall k :: 0 <= k < |ss| ==> ss[k] == CL_SUCCESS
    requires after == mid + QueueLog(c, ds[..|ss|], qs[..|ss|], ss)
    ensures forall k :: 0 <= k < |ds| ==> CreateQueue(c, ds[k], CL_SUCCESS, qs[k]) in after
  {
    forall k | 0 <= k < |ds|
      ensures CreateQueue(c, ds[k], CL_SUCCESS, qs[k]) in after
    {
      assert after[|mid| + k] == QueueLog(c, ds[..|ss|], qs[..|ss|], ss)[k];
    }
  }

  /** What teardown did, read off the driver's log from `before` to `after`:
      queue releases in index order up to the first failure (line 94), and,
      when all of them succeeded, the context release, checked at line 98. */
  ghost predicate TeardownOutcome(before: seq<Call>, after: seq<Call>, st: Status,
                                  qs: seq<QueueHandle>, c: ContextHandle, ss: seq<int>, ctxStatus: int)
  {
    && 0 < |ss| <= |qs|
    && (forall k :: 0 <= k < |ss| - 1 ==> ss[k] == CL_SUCCESS)
    && (ss[|ss| - 1] != CL_SUCCESS ==>
          st == Failed(ss[|ss| - 1], 94) && after == before + ReleaseLog(qs[..|ss|], ss))
    && (ss[|ss| - 1] == CL_SUCCESS ==>
          && |ss| == |qs| && st == Check(ctxStatus, 98)
          && after == before + ReleaseLog(qs, ss) + [ReleaseContext(c, ctxStatus)])
  }

  /** Construction never releases anything: a failure after the context or
      some queues were created leaves them allocated. */
  lemma NoRollback(ps: seq<PlatformId>, answers: seq<DeviceQuery>, ds: seq<DeviceId>,
                   ctxStatus: int, c: ContextHandle, qs: seq<QueueHandle>, ss: seq<int>)
    requires |ps| == |answers| && |ss| <= |ds| && |ss| <= |qs|
    ensures forall k :: 0 <= k < |ConstructionLog(ps, answers, ds, ctxStatus, c, qs, ss)| ==>
              !ConstructionLog(ps, answers, ds, ctxStatus, c, qs, ss)[k].IsRelease()
  {
  }

  /** After a complete construction, queue `i` is the `i`-th queue created,
      created in the shared context for device `i`. */
  lemma QueuesInDeviceOrder(ps: seq<PlatformId>, answers: seq<DeviceQuery>, ds: seq<DeviceId>,
                            c: ContextHandle, qs: seq<QueueHandle>, ss: seq<int>, i: nat)
    requires |ps| == |answers| && 0 < |ss| == |ds| == |qs| && i < |ds|
    requires forall k :: 0 <= k < |ss| ==> ss[k] == CL_SUCCESS
    ensures var log := ConstructionLog(ps, answers, ds, CL_SUCCESS, c, qs, ss);
            |log| == |ps| + 2 + |ds| &&
            log[|ps| + 1] == CreateContext(ds, CL_SUCCESS, c) &&
            log[|ps| + 2 + i] == CreateQueue(c, ds[i], CL_SUCCESS, qs[i])
  {
  }

  // ---------------------------------------------------------------------
  // Index fallback shared by the two accessors

  /** The slot an accessor reads: `i` when it names a device, 0 otherwise. */
  function SlotIndex(i: int, n: nat): (k: nat)
    requires n > 0
    ensures k < n
    ensures 0 <= i < n ==> k == i
    ensures !(0 <= i < n) ==> k == 0
  {
    if i < 0 || i >= n then 0 else i
  }

  class GPUContextManager {
    /** m_DevicesList */
    var devices: seq<DeviceId>
    /** m_Context */
    var context: ContextHandle
    /** m_CommandQueue, one entry per device */
    var queues: array<QueueHandle>

    /** A successfully constructed manager: at least one device and exactly
        one queue per device. */
    ghost predicate Live()
      reads this
    {
      |devices| > 0 && queues.Length == |devices|
    }

    /** Queue `i` was created, successfully, in this manager's context for
        device `i`. */
    ghost predicate BoundTo(drv: Driver)
      reads this, queues, drv
    {
      Live() &&
      forall k :: 0 <= k < |devices| ==> CreateQueue(context, devices[k], CL_SUCCESS, queues[k]) in drv.log
    }

    /** The allocation that `new GPUContextManager()` makes before its body runs. */
    constructor ()
      ensures devices == [] && queues.Length == 0
    {
      devices := [];
      context := ContextHandle(0);
      queues := new QueueHandle[0];
    }

    /** Constructor, lines 46-63: clear the device list, then append the GPU
        devices of every platform whose query succeeded with some devices. */
    method CollectDevices(drv: Driver) returns (ghost ps: seq<PlatformId>, ghost answers: seq<DeviceQuery>)
      modifies this`devices, drv
      ensures |answers| == |ps|
      ensures devices == Aggregate(answers)
      ensures drv.log == old(drv.log) + [ListPlatforms(ps)] + QueryLog(ps, answers)
    {
      devices := [];
      var platformsList := drv.GetPlatformsList();
      ps, answers := platformsList, [];
      if |platformsList| != 0 {
        var devType := CL_DEVICE_TYPE_GPU;
        for k := 0 to |platformsList|
          invariant |answers| == k
          invariant devices == Aggregate(answers)
          invariant drv.log == old(drv.log) + [ListPlatforms(ps)] + QueryLog(ps[..k], answers)
        {
          var res, devicesList := drv.GetAvailableDevices(platformsList[k], devType);
          if res && |devicesList| > 0 {
            devices := devices + devicesList;
          }
          ghost var answers' := answers + [DeviceQuery(res, devicesList)];
          assert answers'[..k] == answers;
          assert QueryLog(ps[..k + 1], answers') == QueryLog(ps[..k], answers) + [QueryDevices(ps[k], devType, answers'[k])];
          answers := answers';
        }
      }
      assert ps[..|ps|] == ps;
    }

    /** Constructor, lines 76-85: one queue per device, in device order;
        the first failing creation stops the loop. */
    method CreateQueues(drv: Driver) returns (st: Status, ghost ss: seq<int>)
      requires |devices| > 0
      modifies this`queues, drv
      ensures fresh(queues) && queues.Length == |devices|
      ensures 0 < |ss| <= |devices|
      ensures drv.log == old(drv.log) + QueueLog(context, devices[..|ss|], queues[..|ss|], ss)
      ensures forall k :: 0 <= k < |ss| - 1 ==> ss[k] == CL_SUCCESS
      ensures ss[|ss| - 1] == CL_SUCCESS ==> |ss| == |devices|
      ensures st == Check(ss[|ss| - 1], 84)
    {
      queues := new QueueHandle[|devices|];
      ss := [];
      st := Ok;
      var i := 0;
      while i < |devices|
        invariant 0 <= i <= |devices| && |ss| == i && queues.Length == |devices| && fresh(queues)
        invariant i > 0 ==> st == Ok
        invariant forall k :: 0 <= k < i ==> ss[k] == CL_SUCCESS
        invariant drv.log == old(drv.log) + QueueLog(context, devices[..i], queues[..i], ss)
      {
        var q, errid := drv.CreateCommandQueue(context, devices[i]);
        queues[i] := q;
        assert queues[..i + 1] == queues[..i] + [q];
        assert devices[..i + 1] == devices[..i] + [devices[i]];
        assert QueueLog(context, devices[..i + 1], queues[..i + 1], ss + [errid])
            == QueueLog(context, devices[..i], queues[..i], ss) + [CreateQueue(context, devices[i], errid, q)];
        ss := ss + [errid];
        st := Check(errid, 84);
        if st.Failed? {
          return;
        }
        i := i + 1;
      }
    }

    /** The constructor body (lines 42-86). */
    method Initialize(drv: Driver)
      returns (st: Status, ghost ps: seq<PlatformId>, ghost answers: seq<DeviceQuery>,
               ghost ctxStatus: int, ghost ss: seq<int>)
      modifies this, drv
      ensures ConstructionOutcome(old(drv.log), drv.log, st, ps, answers, devices, ctxStatus, context, queues[..], ss)
      ensures st.Ok? ==> Live() && BoundTo(drv) && fresh(queues)
    {
      ghost var log0 := drv.log;
      ps, answers := CollectDevices(drv);
      ctxStatus, ss := CL_SUCCESS, [];
      if |devices| == 0 {
        var errid := CL_DEVICE_NOT_AVAILABLE;
        st := Check(errid, 68);
        assert drv.log == log0 + ConstructionLog(ps, answers, devices, ctxStatus, context, queues[..], ss);
        return;
      }
      var errid;
      context, errid := drv.CreateContextFor(devices);
      ctxStatus := errid;
      st := Check(errid, 73);
      if st.Failed? {
        assert drv.log == log0 + ConstructionLog(ps, answers, devices, ctxStatus, context, queues[..], ss);
        return;
      }
      ghost var log1 := drv.log;
      st, ss := CreateQueues(drv);
      QueuePhaseLog(log0, log1, drv.log, ps, answers, devices, context, queues[..], ss);
      if st.Ok? {
        QueuesRecorded(log1, drv.log, context, devices, queues[..], ss);
      }
    }

    /** The destructor (lines 88-104): release every queue in index order,
        then the context, then empty the device list. A failing release
        stops it there. */
    method Release(drv: Driver) returns (st: Status, ghost ss: seq<int>, ghost ctxStatus: int)
      requires Live()
      modifies this`devices, drv
      ensures TeardownOutcome(old(drv.log), drv.log, st, queues[..], context, ss, ctxStatus)
      ensures st.Ok? ==> devices == []
      ensures st.Ok? ==>
                drv.log == old(drv.log) + ReleaseLog(queues[..], Successes(queues.Length)) + [ReleaseContext(context, CL_SUCCESS)]
      ensures st.Failed? ==> devices == old(devices)
    {
      ss, ctxStatus := [], CL_SUCCESS;
      var i := 0;
      while i < |devices|
        invariant 0 <= i <= |devices| && |ss| == i && devices == old(devices) && Live()
        invariant forall k :: 0 <= k < i ==> ss[k] == CL_SUCCESS
        invariant drv.log == old(drv.log) + ReleaseLog(queues[..i], ss)
      {
        var errid := drv.ReleaseCommandQueue(queues[i]);
        assert queues[..i + 1] == queues[..i] + [queues[i]];
        assert ReleaseLog(queues[..i + 1], ss + [errid]) == ReleaseLog(queues[..i], ss) + [ReleaseQueue(queues[i], errid)];
        ss := ss + [errid];
        st := Check(errid, 94);
        if st.Failed? {
          return;
        }
        i := i + 1;
      }
      assert queues[..i] == queues[..];
      var errid := drv.ReleaseContextOf(context);
      ctxStatus := errid;
      st := Check(errid, 98);
      if st.Failed? {
        return;
      }
      assert ss == Successes(queues.Length);
      if |devices| > 0 {
        devices := [];
      }
    }

    /** GetCommandQueue(i): the queue of slot `i`, or of slot 0 when `i` is
        negative or not below the device count. */
    method GetCommandQueue(i: int) returns (q: QueueHandle)
      requires Live()
      ensures 0 <= i < |devices| ==> q == queues[i]
      ensures !(0 <= i < |devices|) ==> q == queues[0]
      ensures q == queues[SlotIndex(i, |devices|)]
    {
      if i < 0 || i >= |devices| {
        return queues[0];
      }
      return queues[i];
    }

    /** GetDeviceId(i): the device of slot `i`, or of slot 0 when `i` is
        negative or not below the device count. */
    method GetDeviceId(i: int) returns (d: DeviceId)
      requires Live()
      ensures 0 <= i < |devices| ==> d == devices[i]
      ensures !(0 <= i < |devices|) ==> d == devices[0]
      ensures d == devices[SlotIndex(i, |devices|)]
    {
      if i < 0 || i >= |devices| {
        return devices[0];
      }
      return devices[i];
    }
  }

  /** For any index, the queue and the device the two accessors hand out
      belong together: that queue was created for that device. */
  lemma AccessorsAgree(m: GPUContextManager, drv: Driver, i: int)
    requires m.BoundTo(drv)
    ensures var k := SlotIndex(i, |m.devices|);
            CreateQueue(m.context, m.devices[k], CL_SUCCESS, m.queues[k]) in drv.log
  {
  }

  /** The process-wide slot `GPUContextManager::m_Instance`, together with
      the OpenCL runtime the manager talks to. */
  class InstanceSlot {
    const driver: Driver
    var instance: GPUContextManager?

    ghost predicate Valid()
      reads this, driver, instance
      reads if instance != null then {instance.queues} else {}
    {
      instance != null ==> instance.BoundTo(driver)
    }

    /** Static initialisation: the slot starts empty. */
    constructor (driver: Driver)
      ensures this.driver == driver && instance == null && Valid()
    {
      this.driver := driver;
      instance := null;
    }

    /** GetInstance: construct a manager only when the slot is empty; a
        construction failure leaves the slot empty and is returned. */
    method GetInstance()
      returns (m: GPUContextManager?, st: Status,
               ghost ps: seq<PlatformId>, ghost answers: seq<DeviceQuery>, ghost ds: seq<DeviceId>,
               ghost ctxStatus: int, ghost c: ContextHandle, ghost qs: seq<QueueHandle>, ghost ss: seq<int>)
      requires Valid()
      modifies this, driver
      ensures Valid()
      ensures m != null <==> st.Ok?
      ensures st.Ok? ==> m == instance && m.Live()
      ensures old(instance) != null ==>
                m == instance == old(instance) && driver.log == old(driver.log)
      ensures old(instance) == null ==>
                ConstructionOutcome(old(driver.log), driver.log, st, ps, answers, ds, ctxStatus, c, qs, ss)
      ensures old(instance) == null && st.Ok? ==>
                fresh(m) && m.devices == ds && m.context == c && m.queues[..] == qs
      ensures old(instance) == null && st.Failed? ==> instance == null
    {
      ps, answers, ds, ctxStatus, c, qs, ss := [], [], [], CL_SUCCESS, ContextHandle(0), [], [];
      if instance == null {
        var created := new GPUContextManager();
        st, ps, answers, ctxStatus, ss := created.Initialize(driver);
        ds, c, qs := created.devices, created.context, created.queues[..];
        if st.Failed? {
          return null, st, ps, answers, ds, ctxStatus, c, qs, ss;
        }
        instance := created;
      }
      m, st := instance, Ok;
    }

    /** DestroyInstance: run the manager's destructor and empty the slot.
        The slot must hold an instance. A release failure propagates and
        leaves the slot as it was. */
    method DestroyInstance() returns (st: Status, ghost ss: seq<int>, ghost ctxStatus: int)
      requires Valid() && instance != null
      modifies this, instance, driver
      ensures Valid()
      ensures TeardownOutcome(old(driver.log), driver.log, st, old(instance.queues[..]), old(instance.context), ss, ctxStatus)
      ensures st.Ok? ==> instance == null && old(instance).devices == []
      ensures st.Ok? ==>
                driver.log == old(driver.log) + ReleaseLog(old(instance.queues[..]), Successes(old(instance.queues.Length)))
                              + [ReleaseContext(old(instance.context), CL_SUCCESS)]
      ensures st.Failed? ==> instance == old(instance) && instance.devices == old(instance.devices)
    {
      st, ss, ctxStatus := instance.Release(driver);
      if st.Ok? {
        instance := null;
      } else {
        forall k | 0 <= k < |instance.devices|
          ensures CreateQueue(instance.context, instance.devices[k], CL_SUCCESS, instance.queues[k]) in driver.log
        {
          assert CreateQueue(instance.context, instance.devices[k], CL_SUCCESS, instance.queues[k]) in old(driver.log);
        }
      }
    }
  }

  /** Two calls to GetInstance with no DestroyInstance between them give the
      same manager, and the second asks nothing of the driver. */
  method SameInstanceTwice(slot: InstanceSlot)
    returns (a: GPUContextManager?, b: GPUContextManager?, ghost between: seq<Call>)
    requires slot.Valid()
    modifies slot, slot.driver
    ensures a != null ==> b == a && slot.instance == a && slot.driver.log == between
  {
    var st;
    ghost var ps, answers, ds, ctxStatus, c, qs, ss;
    a, st, ps, answers, ds, ctxStatus, c, qs, ss := slot.GetInstance();
    between := slot.driver.log;
    b, st, ps, answers, ds, ctxStatus, c, qs, ss := slot.GetInstance();
  }

  /** GetInstance after a successful DestroyInstance runs construction
      again, from the platform query on: it returns a new manager, or the
      construction's failure with the slot left empty. */
  method ReinitAfterDestroy(slot: InstanceSlot)
    returns (destroyed: Status, after: GPUContextManager?, st: Status, ghost between: seq<Call>,
             ghost rs: seq<int>, ghost rctx: int,
             ghost ps: seq<PlatformId>, ghost answers: seq<DeviceQuery>, ghost ds: seq<DeviceId>,
             ghost ctxStatus: int, ghost c: ContextHandle, ghost qs: seq<QueueHandle>, ghost ss: seq<int>)
    requires slot.Valid() && slot.instance != null
    modifies slot, slot.instance, slot.driver
    ensures TeardownOutcome(old(slot.driver.log), between, destroyed,
                            old(slot.instance.queues[..]), old(slot.instance.context), rs, rctx)
    ensures destroyed.Failed? ==>
              after == null && st == destroyed && slot.instance == old(slot.instance) && slot.driver.log == between
    ensures destroyed.Ok? ==>
              ConstructionOutcome(between, slot.driver.log, st, ps, answers, ds, ctxStatus, c, qs, ss)
    ensures destroyed.Ok? && st.Ok? ==>
              after != null && fresh(after) && slot.instance == after && after.devices == ds
    ensures destroyed.Ok? && st.Failed? ==> after == null && slot.instance == null
  {
    destroyed, rs, rctx := slot.DestroyInstance();
    between := slot.driver.log;
    after, st := null, destroyed;
    ps, answers, ds, ctxStatus, c, qs, ss := [], [], [], CL_SUCCESS, ContextHandle(0), [], [];
    if destroyed.Ok? {
      after, st, ps, answers, ds, ctxStatus, c, qs, ss := slot.GetInstance();
    }
  }
}
