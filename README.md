# GPU context manager and XML attribute table (ITK), modelled in Dafny

This project models two small stateful components of ITK and proves what
their code promises.

- **`itk::GPUContextManager`** is the process-wide singleton that owns ITK's
  OpenCL resources. On first use it does three things. It collects the GPU
  devices of every OpenCL platform into one list. It creates one context
  over that list. It creates one command queue per device, in device order.
  It then hands out queues and device ids by index, falling back to slot 0
  for a bad index. On destruction it releases every queue in index order,
  then the context, then empties the device list.
- **`xml::Attributes`** is the attribute table of one XML element in the
  CABLE parsers. It maps attribute names to string values. It offers
  `Set`, `Get` (throws `MissingAttributeException` for a missing name),
  `Have`, and the conversions `GetAsInteger` (`atoi`) and `GetAsBoolean`
  (non-zero).

Files:

- `cstdlib.dfy`, module `CStdlib`: the C `atoi` (ISO C11 section 7.22.1.2)
  as a function. It skips leading `isspace` characters of the "C" locale,
  reads an optional sign, then the longest run of decimal digits. It comes
  with a decimal numeral function and the round trip between the two.
- `xml_attributes.dfy`, module `XmlAttributes`: class `Attributes`. Its
  field `attrs: map<string, string>` is `m_Attrs`. `Set` is a method that
  updates the map in place. The `const` lookups are functions that read the
  object. A missing attribute gives `Err(MissingAttribute(name))` in place
  of the exception.
- `opencl.dfy`, module `OpenCL`: the OpenCL runtime's boundary. Platform,
  device, context and queue handles are opaque values. Class `Driver`
  stands in for the runtime. Each of its methods appends the call and its
  answer (status code, handle, device list) to `log`. The manager's
  contracts speak about that log, so they state which calls were made, in
  which order, and with which arguments. The manager's proofs use only the
  driver methods' postconditions, so they hold for any answers the runtime
  gives.
- `gpu_context_manager.dfy`, module `GPUCommon`:
  - class `GPUContextManager`, whose fields are `m_DevicesList` (a `seq`),
    `m_Context`, and `m_CommandQueue` (an `array` with one entry per device);
  - class `InstanceSlot`, the static `m_Instance` slot;
  - `Check`, which models `OpenCLCheckError`. A status other than
    `CL_SUCCESS` becomes `Failed(code, line)`. The line is the source line
    of the check (68, 73, 84, 94 or 98). The operation stops there and
    returns the failure, as the thrown exception would.

The model follows what the code does, including three behaviours that a
safer design would change:

- Construction does not roll back the context or queues already created
  when a later step fails (`NoRollback`).
- `GetInstance` and `DestroyInstance` take no lock.
- `DestroyInstance` requires a live instance, because the code dereferences
  `m_Instance` without a null check.

## Model

| member | source | states |
|---|---|---|
| `XmlAttributes.Attributes.Set` | Utilities/Cable/Parsers/cableXmlAttributes.cxx:29-32 | the map becomes the old map with `a` bound to `v`: `a` is present with value `v` (last write wins), and every other name keeps its presence and value |
| `XmlAttributes.Attributes.Get` | Utilities/Cable/Parsers/cableXmlAttributes.cxx:38-51 | succeeds exactly when `a` is in the map, with the stored value; otherwise it is the missing-attribute error naming `a`; it changes nothing |
| `XmlAttributes.Attributes.Have` | Utilities/Cable/Parsers/cableXmlAttributes.cxx:79-84 | true exactly when `a` is a key of the map; it changes nothing |
| `XmlAttributes.Attributes.GetAsInteger` | Utilities/Cable/Parsers/cableXmlAttributes.cxx:57-62 | succeeds exactly when `Have(a)`, with `atoi` of the stored value; a missing `a` propagates the missing-attribute error |
| `XmlAttributes.Attributes.GetAsBoolean` | Utilities/Cable/Parsers/cableXmlAttributes.cxx:68-73 | succeeds exactly when `Have(a)`, true exactly when `atoi` of the value is non-zero; a missing `a` propagates the error |
| `XmlAttributes.HaveIffGetSucceeds` | Utilities/Cable/Parsers/cableXmlAttributes.cxx:40-83 | `Have(a)` holds exactly when `Get(a)` succeeds |
| `XmlAttributes.ConversionsAgreeWithGet` | Utilities/Cable/Parsers/cableXmlAttributes.cxx:59-72 | `GetAsInteger` is `atoi` applied to what `Get` returns, or `Get`'s error; `GetAsBoolean` is "non-zero" applied to `GetAsInteger`, or its error |
| `XmlAttributes.NumeralAttribute` | Utilities/Cable/Parsers/cableXmlAttributes.cxx:57-73 | a value written as the decimal numeral of a C `int` `i` (between `INT_MIN` and `INT_MAX`) reads back as integer `i`, and as true exactly when `i != 0` |
| `XmlAttributes.WordTrueIsFalse` | Utilities/Cable/Parsers/cableXmlAttributes.cxx:68-73 | the value "true" reads as integer 0 and therefore as boolean false |
| `XmlAttributes.LastWriteWins` | Utilities/Cable/Parsers/cableXmlAttributes.cxx:31 | after writing `a` twice, `Get(a)` is the second value, and a name never written is still missing |
| `CStdlib.Atoi` | Utilities/Cable/Parsers/cableXmlAttributes.cxx:61 | `atoi`: skips leading "C"-locale white space, reads an optional sign and then the longest run of decimal digits; when no digit follows the white space and sign (as in "true", "- 5" or "+-3") the result is 0, and a negative result needs a '-' as the first non-space character |
| `CStdlib.AtoiOfIntToString` | Utilities/Cable/Parsers/cableXmlAttributes.cxx:61 | the model's `atoi`, which returns the mathematical value of the digits, reads back the decimal numeral of every integer; for a C `int` this is `atoi`'s own round trip |
| `CStdlib.AtoiOfNumeralThenRest` | Utilities/Cable/Parsers/cableXmlAttributes.cxx:61 | `atoi` stops at the first non-digit: text after a numeral that does not start with a digit is ignored |
| `CStdlib.AtoiSkipsSpace` | Utilities/Cable/Parsers/cableXmlAttributes.cxx:61 | leading white space does not change the result of `atoi` |
| `GPUCommon.Check` | Modules/Core/GPUCommon/src/itkGPUContextManager.cxx:67-68 | passes exactly on `CL_SUCCESS`; otherwise fails with that status and the line of the check |
| `GPUCommon.GPUContextManager.CollectDevices` | Modules/Core/GPUCommon/src/itkGPUContextManager.cxx:46-63 | the driver is asked for the platform list once, then for the GPU devices of each platform in order; the device list is the aggregate of those answers |
| `GPUCommon.AggregateAppend` | Modules/Core/GPUCommon/src/itkGPUContextManager.cxx:53-62 | the aggregate of two runs of platform answers is the first run's aggregate followed by the second's: platform order and each platform's device order are kept |
| `GPUCommon.AggregateEmpty` | Modules/Core/GPUCommon/src/itkGPUContextManager.cxx:57-65 | the device list is empty exactly when every platform's query failed or returned no device |
| `GPUCommon.AggregateMembers` | Modules/Core/GPUCommon/src/itkGPUContextManager.cxx:57-60 | a device is in the list exactly when some successful query returned it |
| `GPUCommon.GPUContextManager.CreateQueues` | Modules/Core/GPUCommon/src/itkGPUContextManager.cxx:76-85 | a fresh queue array sized to the device count; queue creations in device order, queue `i` for device `i`, stopping at the first failure with that status and line 84 |
| `GPUCommon.GPUContextManager.Initialize` | Modules/Core/GPUCommon/src/itkGPUContextManager.cxx:42-86 | the whole driver dialogue of construction; no device gives `CL_DEVICE_NOT_AVAILABLE` at line 68; a failed context gives line 73; a failed queue gives line 84; success leaves one queue per device, each created for its device |
| `GPUCommon.NoRollback` | Modules/Core/GPUCommon/src/itkGPUContextManager.cxx:72-85 | construction makes no release call, so a failure after the context or some queues were created leaves them allocated |
| `GPUCommon.QueuesInDeviceOrder` | Modules/Core/GPUCommon/src/itkGPUContextManager.cxx:72-85 | on success the context is created right after the queries, and the `i`-th queue created is queue `i`, in that context, for device `i` |
| `GPUCommon.GPUContextManager.Release` | Modules/Core/GPUCommon/src/itkGPUContextManager.cxx:88-104 | releases queue 0, 1, … in order, then the context, then empties the device list; a failing release stops there with its status and line (94 or 98) and leaves the list as it was |
| `GPUCommon.GPUContextManager.GetCommandQueue` | Modules/Core/GPUCommon/src/itkGPUContextManager.cxx:106-115 | queue `i` when `i` is at least 0 and below the device count, queue 0 for a negative or too-large `i`; never fails on a live manager |
| `GPUCommon.GPUContextManager.GetDeviceId` | Modules/Core/GPUCommon/src/itkGPUContextManager.cxx:117-126 | device `i` when `i` is at least 0 and below the device count, device 0 for a negative or too-large `i` |
| `GPUCommon.AccessorsAgree` | Modules/Core/GPUCommon/src/itkGPUContextManager.cxx:106-126 | for every index, the queue and device the two accessors return belong together: that queue was created for that device |
| `GPUCommon.InstanceSlot.constructor` | Modules/Core/GPUCommon/src/itkGPUContextManager.cxx:24 | the slot starts empty |
| `GPUCommon.InstanceSlot.GetInstance` | Modules/Core/GPUCommon/src/itkGPUContextManager.cxx:26-33 | with a live instance, returns it and makes no driver call; with an empty slot, runs the whole construction dialogue with the driver (the calls of `Initialize`, with its failures at lines 68, 73 and 84), then stores and returns the fresh manager, whose devices are the aggregate of the platforms' answers and whose queues and context are the ones created; on a failure it leaves the slot empty and returns that failure |
| `GPUCommon.InstanceSlot.DestroyInstance` | Modules/Core/GPUCommon/src/itkGPUContextManager.cxx:35-40 | requires a live instance; releases its queues in index order and then its context, exactly as `Release` does: a failing queue release stops at line 94 with only the queues up to it released, a failing context release is reported at line 98; on success the device list and the slot are empty, on failure the slot and the device list are kept |
| `GPUCommon.SameInstanceTwice` | Modules/Core/GPUCommon/src/itkGPUContextManager.cxx:26-33 | two `GetInstance` calls in a row return the same manager, and when the first succeeded the second makes no driver call |
| `GPUCommon.ReinitAfterDestroy` | Modules/Core/GPUCommon/src/itkGPUContextManager.cxx:26-38 | `DestroyInstance` releases as `Release` does; when it succeeded, the following `GetInstance` asks the driver again, running the whole construction dialogue afresh, and returns a fresh manager with the new devices or the construction's failure with the slot empty; when it failed, nothing more happens |

## Left out

- The OpenCL runtime is not part of this model. This covers `clCreateContext`, `clCreateCommandQueue`, `clReleaseCommandQueue`, `clReleaseContext`, `OpenCLGetPlatformsList` and `OpenCLGetAvailableDevices`. `Driver` records each call and answers from a configuration, and no property depends on that configuration.
- `OpenCLCheckError` is not part of this model. Its throwing behaviour is modelled by `Check` and the early returns. The error message it builds is not modelled.
- `OpenCLPrintDeviceInfo`, the `printf` diagnostics of the two accessors and `itkDebugStatement` only produce console output, so they are not modelled.
- `malloc`/`free` of `m_CommandQueue` become a Dafny array sized to the device count. The `free` has no counterpart.
- `Delete()` is modelled as running the destructor. This holds when nothing else holds a reference to the singleton; ITK's reference counting is not modelled.
- GPUCommon.InstanceSlot.DestroyInstance: when the destructor's release check throws, the slot keeps its old value. In C++ the object has been freed by then, so that pointer dangles. Under C++11 rules a throwing destructor terminates the process instead. The model represents neither the dangling pointer nor the termination.
- Concurrent `GetInstance`/`DestroyInstance` calls are not modelled. The code has no locking, and the model proves no thread safety.
- GPUCommon.GPUContextManager.GetCommandQueue: the `(int)` cast of the device count is taken as exact. A count above `INT_MAX` is not modelled.
- XmlAttributes.Attributes.GetAsInteger: returns the mathematical value of the digits. `atoi` on a value outside the range of `int` is undefined behaviour in C, and the model does not restrict it.
- XmlAttributes.Attributes.Get: returns the stored string itself. The source returns `c_str()`, which a caller reads only up to an embedded NUL character; the model does not make that cut.
- The headers `cableXmlAttributes.h` and `itkGPUContextManager.h` are not part of this model. The `Attributes` constructor is taken to start with an empty map.
- `Code/BasicFilters/itkPointSetToImageFilter.h` is not modelled. It holds only declarations and generated accessors; its algorithm lives in a file that is not part of this model.
