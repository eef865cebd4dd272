# ActivationBackprop: a verified model of DeepCL's activation-layer backward pass

DeepCL's `ActivationBackprop` is the base class of the backward pass through an
activation layer. It computes the gradient with respect to the layer's input
from the gradient with respect to its output. The class itself does none of the
arithmetic. It does three things:

- it picks an implementation (`instance`, `instanceForTest`, `instanceSpecific`);
- it fixes the layer geometry and derives buffer sizes from a batch size;
- its host-memory `backpropErrors` wraps three host float buffers as device
  buffers, copies two of them to the device, hands the three wrappers to the
  implementation's device-buffer overload, copies the result back, deletes the
  wrappers, and brackets all of it with two timer checkpoints.

The project models these three parts in five Dafny modules:

- `Wrappers` holds `Option`.
- `Decimal` renders an `int` in decimal and parses it back. It gives the
  "idx not known" error message a checkable meaning.
- `ActivationBackprop` holds the implementation tag (`Cpu | GpuNaive`), the
  instance value with its geometry, the two exceptions, the factories and the
  size functions.
- `DeviceContext` holds the execution context as a `class Context`. The class
  keeps a table of device-buffer handles and the next fresh id, plus a ghost log
  of every wrap, transfer, release, dispatch and timer checkpoint. Each
  operation is a method that updates the table and appends to the log.
  - `Apply`/`Run` define a handle state machine: Wrapped, OnDevice,
    CopiedToHost, Released.
  - `Context.Valid()` states that the table is exactly what replaying the log
    on that machine yields.
- `HostBackprop` holds the host-memory `backpropErrors` as a method over a
  `Context`.
  - The implementation's device-buffer overload is not part of this model. Its
    outcome (`Pass` or `Fail`) is a parameter.
  - The base class's overload always fails.
  - `HostTrace` is the specification of the log one call appends. The lemmas
    prove its per-handle lifecycles, its checkpoints, and its replay on the
    state machine.

The source throws out of the host method when the device step fails. The model
follows the code here. Nothing after the device step runs:

- no copy back;
- none of the three deletes;
- no end checkpoint.

The three handles therefore stay live: a failed device step leaks the three
device buffers. `AfterHostCall` and `BaseStepLeaksHandles` state this leak.

## Model

| member | source | states |
|---|---|---|
| ActivationBackprop.Instance | src/ActivationBackprop.cpp:26-28 | the production factory always builds the GpuNaive variant, with the given plane count and image size on both sides |
| ActivationBackprop.InstanceForTest | src/ActivationBackprop.cpp:29-31 | the test factory also always builds the GpuNaive variant with the given geometry |
| ActivationBackprop.DefaultsAreGpuNaive | src/ActivationBackprop.cpp:26-37 | the two default factories agree with each other and with selecting id 1 |
| ActivationBackprop.InstanceSpecific | src/ActivationBackprop.cpp:32-40 | succeeds exactly for ids 0 and 1, building the variant whose id it is with the constructor's geometry; every other id fails with UnknownVariant carrying that id |
| ActivationBackprop.InstanceSpecificOfVariantId | src/ActivationBackprop.cpp:33-38 | selecting a variant by its own id builds exactly that variant (0 is Cpu, 1 is GpuNaive) |
| ActivationBackprop.Message | src/ActivationBackprop.cpp:39 | the message of an unknown-id error starts with the fixed "idx not known" prefix |
| ActivationBackprop.UnknownVariantMessageNamesId | src/ActivationBackprop.cpp:39 | for an id other than 0 and 1 the factory fails, and the id can be read back from the message text after the prefix |
| ActivationBackprop.UnknownVariantMessagesDiffer | src/ActivationBackprop.cpp:39 | two different unknown ids produce two different messages |
| Decimal.ParseIntToString | src/ActivationBackprop.cpp:39 | parsing the decimal rendering of any integer gives back that integer |
| ActivationBackprop.New | src/ActivationBackprop.cpp:41-47 | the constructor keeps the variant, plane count and input image size, and sets the output image size to the input image size; the type `Backprop` admits only values with equal image sizes |
| ActivationBackprop.InputSize | src/ActivationBackprop.cpp:48-50 | for a batch whose product stays in int32 range at every step, the input size is an int32 value, non-negative for non-negative batch and plane count, and zero exactly when the batch, plane count or image size is zero |
| ActivationBackprop.OutputSize | src/ActivationBackprop.cpp:51-53 | the same for the output size over the output image size |
| ActivationBackprop.OutputSizeEqualsInputSize | src/ActivationBackprop.cpp:41-53 | for every instance and batch, the output size is defined whenever the input size is, and the two are equal |
| ActivationBackprop.ExampleInputSize | src/ActivationBackprop.cpp:48-50 | three planes of 8x8 images in a batch of 5 take 960 floats |
| DeviceContext.Context.Wrap | src/ActivationBackprop.cpp:58-60 | wrapping takes the next fresh id, which is not in use, adds a Wrapped handle paired with the host buffer and size, and logs it |
| DeviceContext.Context.CopyToDevice | src/ActivationBackprop.cpp:62-63 | a host-to-device copy needs a live handle, marks it OnDevice and logs it |
| DeviceContext.Context.Compute | src/ActivationBackprop.cpp:65 | the device step is dispatched on three live handles, leaves the table unchanged and is logged |
| DeviceContext.Context.CopyToHost | src/ActivationBackprop.cpp:67 | a device-to-host copy needs a live handle, marks it CopiedToHost and logs it |
| DeviceContext.Context.Release | src/ActivationBackprop.cpp:69-71 | a delete needs a live handle, marks it Released, keeps it in the table, and logs it |
| DeviceContext.Context.TimeCheck | src/ActivationBackprop.cpp:56 | a timer checkpoint changes no handle and logs its name |
| DeviceContext.RunNeverTouchesReleased | src/ActivationBackprop.cpp:69-72 | in every log the state machine accepts, no event touches a handle after its release, so nothing is released twice; every released handle ends Released; handles released beforehand are neither changed nor mentioned |
| HostBackprop.BaseBackpropErrorsWrappers | src/ActivationBackprop.cpp:74-76 | the base device-buffer overload always fails with WrappersNotImplemented |
| HostBackprop.WrapBuffers | src/ActivationBackprop.cpp:58-60 | wraps inputs, errors and gradInput in that order as three consecutive fresh handles, with the given sizes |
| HostBackprop.UploadAndCompute | src/ActivationBackprop.cpp:56-65 | logs the start checkpoint, the three wraps, the copies of inputs and gradOutput to the device, then the device step; inputs and gradOutput end OnDevice and gradInput stays Wrapped |
| HostBackprop.DownloadAndRelease | src/ActivationBackprop.cpp:67-72 | logs the copy of gradInput back, the three deletes in order, then the end checkpoint, and leaves the three handles Released |
| HostBackprop.BackpropErrors | src/ActivationBackprop.cpp:54-73 | returns the device step's outcome, keeps the context valid, uses three fresh ids, appends exactly HostTrace for that outcome, with sizes InputSize, OutputSize and InputSize, and leaves the table as AfterHostCall: all three handles released after a completed step, still live after a failed one |
| HostBackprop.HostTraceLifecycles | src/ActivationBackprop.cpp:58-71 | per handle: inputs and gradOutput are wrapped, copied to the device once, used by the step, then released; gradInput is wrapped, never copied to the device, and used by the step; after a completed step it is copied back exactly once and then released; after a failed step no handle is copied back or released |
| HostBackprop.HostTraceCheckpoints | src/ActivationBackprop.cpp:56-72 | a call's log opens with the start checkpoint, then the three wraps in order with their sizes; its last event is the end checkpoint, and the end checkpoint appears at all, exactly when the step completed |
| HostBackprop.HostTraceReplays | src/ActivationBackprop.cpp:54-73 | from any table whose ids are below the new ones, the state machine accepts a call's log and yields AfterHostCall; the log has no use after release; the three new handles are Released exactly when the step completed |
| HostBackprop.BaseStepLeaksHandles | src/ActivationBackprop.cpp:65-76 | with the base overload as the device step, the log has no copy back and no end checkpoint, and all three handles are still live at the end |

## Left out

- The gradient arithmetic lives in the `ActivationBackpropCpu` and `ActivationBackpropGpuNaive` subclasses and in `ActivationFunction`. These are not part of this model, and it is float arithmetic. The device step is an event plus an outcome parameter; its effect on device memory is not modelled.
- The OpenCL internals of wrapping, copying and deleting a buffer are foreign calls. Each is an abstract handle-state transition. Those calls cannot fail in the model.
- The contents of the host float buffers are not modelled. A buffer is an identity, and a handle records which buffer it wraps and how many floats.
- `StatefulTimer` appears only as a named checkpoint event in the log. Its clock and singleton state are not modelled.
- The execution context (`OpenCLHelper`) is not kept in the instance value; `HostBackprop.BackpropErrors` receives it as its `ctx` argument, so the model does not tie an instance to one context. The activation function is not kept either; the base class only forwards it to the variants.
- Heap allocation and ownership of the returned instance are not modelled. Neither is the commented-out logging.
- `toString` from `stringhelper.h` is not part of this model. `Decimal.IntToString` assumes it renders an `int` in plain decimal with a leading `-` for negatives.
- C++ exceptions are values: `Result` for the factory and `Outcome` for the device step.
- The device step (the variant's own device-buffer overload) is assumed not to transfer, wrap or delete the three wrappers itself: `DeviceContext.Context.Compute` leaves every handle's state unchanged, so the lifecycle facts cover the host method's own calls only. A failing step's exception is reduced to this layer's `Error` kinds.
- The host method's body is split into `UploadAndCompute` and `DownloadAndRelease`, one per side of the device step. The sequence of context operations is unchanged.
- HostBackprop.BackpropErrors: requires that both size products stay within int32 at every step (`SizesDefined`). Signed overflow is undefined behaviour in C++, so the model does not say what happens past it.
