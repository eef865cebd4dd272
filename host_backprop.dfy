/**
 * The two `backpropErrors` entry points of the base class: the device-buffer
 * overload, which the base leaves unimplemented, and the host-memory overload,
 * which wraps the caller's float buffers, moves them to and from the device
 * around the variant's device computation, releases the handles and brackets
 * the whole call with timing checkpoints.
 */
module HostBackprop {
  import opened Wrappers
  import opened ActivationBackprop
  import opened DeviceContext

  const StartCheckpoint := "ActivationBackprop::backpropErrors float->wrapper start"
  const EndCheckpoint := "ActivationBackprop::backpropErrors float->wrapper end"

  /** Both buffer sizes of a call can be computed without `int` overflow. */
  predicate SizesDefined(op: Backprop, batchSize: int) {
    && ProductDefined(batchSize, op.numPlanes, op.inputImageSize)
    && ProductDefined(batchSize, op.numPlanes, op.outputImageSize)
  }

  /** The device-buffer overload as the base class defines it: it always throws. */
  function BaseBackpropErrorsWrappers(batchSize: int, inputs: HandleId, gradOutput: HandleId, gradInput: HandleId): (r: Outcome)
    ensures r.Fail? && r.error == WrappersNotImplemented
  {
    Fail(WrappersNotImplemented)
  }

  /** The three wraps of one call, in order, when its handles get ids `first`, `first + 1`, `first + 2`. */
  function WrapEvents(first: HandleId, inputSize: int, outputSize: int,
                      inputs: HostBuffer, errors: HostBuffer, gradInput: HostBuffer): seq<Event>
  {
    [ Wrap(first, inputSize, inputs),
      Wrap(first + 1, outputSize, errors),
      Wrap(first + 2, inputSize, gradInput) ]
  }

  /** The two host-to-device copies of one call and the dispatch of the device step. */
  function UploadEvents(batchSize: int, first: HandleId): seq<Event> {
    [ CopyToDevice(first),
      CopyToDevice(first + 1),
      Compute(batchSize, first, first + 1, first + 2) ]
  }

  /** What one host-memory call records up to and including the device step. */
  function Prologue(batchSize: int, inputSize: int, outputSize: int, first: HandleId,
                    inputs: HostBuffer, errors: HostBuffer, gradInput: HostBuffer): seq<Event>
  {
    [TimeCheck(StartCheckpoint)]
      + WrapEvents(first, inputSize, outputSize, inputs, errors, gradInput)
      + UploadEvents(batchSize, first)
  }

  /** The three deletes of one call, in order. */
  function ReleaseEvents(first: HandleId): seq<Event> {
    [Release(first), Release(first + 1), Release(first + 2)]
  }

  /**
   * What one host-memory call records after a device step that completed: the
   * copy of `gradInput` back to the host, the three deletes, the end checkpoint.
   */
  function Epilogue(first: HandleId): seq<Event> {
    [CopyToHost(first + 2)] + ReleaseEvents(first) + [TimeCheck(EndCheckpoint)]
  }

  /** Everything one host-memory call records, depending on whether its device step completed. */
  function HostTrace(batchSize: int, inputSize: int, outputSize: int, first: HandleId,
                     inputs: HostBuffer, errors: HostBuffer, gradInput: HostBuffer, completed: bool): seq<Event>
  {
    Prologue(batchSize, inputSize, outputSize, first, inputs, errors, gradInput)
      + if completed then Epilogue(first) else []
  }

  /** The handle table right after the three wraps. */
  function AfterWraps(hs: Handles, first: HandleId, inputSize: int, outputSize: int,
                      inputs: HostBuffer, errors: HostBuffer, gradInput: HostBuffer): Handles
  {
    hs[first := Handle(inputs, inputSize, Wrapped)]
      [first + 1 := Handle(errors, outputSize, Wrapped)]
      [first + 2 := Handle(gradInput, inputSize, Wrapped)]
  }

  /**
   * The handle table after one host-memory call: the three handles are released
   * after a completed device step; otherwise `inputs` and `gradOutput` are left
   * on the device and `gradInput` as wrapped.
   */
  function AfterHostCall(hs: Handles, inputSize: int, outputSize: int, first: HandleId,
                         inputs: HostBuffer, errors: HostBuffer, gradInput: HostBuffer, completed: bool): Handles
  {
    hs[first := Handle(inputs, inputSize, if completed then Released else OnDevice)]
      [first + 1 := Handle(errors, outputSize, if completed then Released else OnDevice)]
      [first + 2 := Handle(gradInput, inputSize, if completed then Released else Wrapped)]
  }

  // ---------------------------------------------------------------- the host-memory entry point

  /** Wraps the three host buffers, in order, as fresh handles. */
  method WrapBuffers(ctx: Context, inputSize: int, outputSize: int,
                     inputs: HostBuffer, errors: HostBuffer, gradInput: HostBuffer)
    returns (inputsWrapper: HandleId)
    requires ctx.Valid()
    modifies ctx
    ensures ctx.Valid()
    ensures inputsWrapper == old(ctx.nextId) && ctx.nextId == old(ctx.nextId) + 3
    ensures ctx.log == old(ctx.log) + WrapEvents(inputsWrapper, inputSize, outputSize, inputs, errors, gradInput)
    ensures ctx.handles == AfterWraps(old(ctx.handles), inputsWrapper, inputSize, outputSize, inputs, errors, gradInput)
  {
    inputsWrapper := ctx.Wrap(inputSize, inputs);
    var gradOutputWrapper := ctx.Wrap(outputSize, errors);
    var gradInputWrapper := ctx.Wrap(inputSize, gradInput);
  }

  /**
   * Everything up to the device step: the start checkpoint, the three wraps,
   * the host-to-device copies of `inputs` and `gradOutput` (not of `gradInput`)
   * and the dispatch of the device step.
   */
  method UploadAndCompute(ctx: Context, batchSize: int, inputSize: int, outputSize: int,
                          inputs: HostBuffer, errors: HostBuffer, gradInput: HostBuffer)
    returns (inputsWrapper: HandleId)
    requires ctx.Valid()
    modifies ctx
    ensures ctx.Valid()
    ensures inputsWrapper == old(ctx.nextId) && ctx.nextId == old(ctx.nextId) + 3
    ensures ctx.log == old(ctx.log) + Prologue(batchSize, inputSize, outputSize, inputsWrapper, inputs, errors, gradInput)
    ensures ctx.handles == AfterHostCall(old(ctx.handles), inputSize, outputSize, inputsWrapper, inputs, errors, gradInput, false)
  {
    ctx.TimeCheck(StartCheckpoint);
    inputsWrapper := WrapBuffers(ctx, inputSize, outputSize, inputs, errors, gradInput);
    var gradOutputWrapper, gradInputWrapper := inputsWrapper + 1, inputsWrapper + 2;
    ctx.CopyToDevice(inputsWrapper);
    ctx.CopyToDevice(gradOutputWrapper);
    ctx.Compute(batchSize, inputsWrapper, gradOutputWrapper, gradInputWrapper);
  }

  /**
   * Everything after a device step that completed: the device-to-host copy of
   * the result, the three deletes and the end checkpoint.
   */
  method DownloadAndRelease(ctx: Context, inputsWrapper: HandleId)
    requires ctx.Valid()
    requires Live(ctx.handles, inputsWrapper) && Live(ctx.handles, inputsWrapper + 1) && Live(ctx.handles, inputsWrapper + 2)
    modifies ctx
    ensures ctx.Valid()
    ensures ctx.nextId == old(ctx.nextId)
    ensures ctx.log == old(ctx.log) + Epilogue(inputsWrapper)
    ensures ctx.handles == old(ctx.handles)[inputsWrapper := old(ctx.handles)[inputsWrapper].(state := Released)]
                                           [inputsWrapper + 1 := old(ctx.handles)[inputsWrapper + 1].(state := Released)]
                                           [inputsWrapper + 2 := old(ctx.handles)[inputsWrapper + 2].(state := Released)]
  {
    var gradOutputWrapper, gradInputWrapper := inputsWrapper + 1, inputsWrapper + 2;
    ctx.CopyToHost(gradInputWrapper);
    ctx.Release(inputsWrapper);
    ctx.Release(gradOutputWrapper);
    ctx.Release(gradInputWrapper);
    ctx.TimeCheck(EndCheckpoint);
  }

  /**
   * The host-memory entry point. `step` is what the variant's device-buffer
   * overload does on the three handles; when it throws, the exception leaves
   * this method at once, so nothing after the device step runs and the three
   * handles are never released.
   */
  method BackpropErrors(op: Backprop, ctx: Context, batchSize: int,
                        inputs: HostBuffer, errors: HostBuffer, gradInput: HostBuffer, step: Outcome)
    returns (r: Outcome)
    requires ctx.Valid() && SizesDefined(op, batchSize)
    modifies ctx
    ensures ctx.Valid()
    ensures r == step
    ensures ctx.nextId == old(ctx.nextId) + 3
    ensures ctx.log == old(ctx.log) + HostTrace(batchSize, InputSize(op, batchSize), OutputSize(op, batchSize),
                                                old(ctx.nextId), inputs, errors, gradInput, step.Pass?)
    ensures ctx.handles == AfterHostCall(old(ctx.handles), InputSize(op, batchSize), OutputSize(op, batchSize),
                                         old(ctx.nextId), inputs, errors, gradInput, step.Pass?)
  {
    var inputSize, outputSize := InputSize(op, batchSize), OutputSize(op, batchSize);
    var inputsWrapper := UploadAndCompute(ctx, batchSize, inputSize, outputSize, inputs, errors, gradInput);
    r := step;
    if step.Fail? {
      return;
    }
    DownloadAndRelease(ctx, inputsWrapper);
  }

  // ---------------------------------------------------------------- properties of one call

  /**
   * The lifecycle of each handle in one call. `inputs` and `gradOutput` are
   * wrapped and copied to the device before the device step; `gradInput` is
   * never copied to the device. Only after a completed device step is
   * `gradInput` copied back, once, and each handle released, once, as its last
   * event; after a failed step no handle is copied back or released.
   */
  lemma HostTraceLifecycles(batchSize: int, inputSize: int, outputSize: int, first: HandleId,
                            inputs: HostBuffer, errors: HostBuffer, gradInput: HostBuffer, completed: bool)
    ensures var t := HostTrace(batchSize, inputSize, outputSize, first, inputs, errors, gradInput, completed);
      var compute := Compute(batchSize, first, first + 1, first + 2);
      && EventsOn(t, first) ==
           [Wrap(first, inputSize, inputs), CopyToDevice(first), compute] + (if completed then [Release(first)] else [])
      && EventsOn(t, first + 1) ==
           [Wrap(first + 1, outputSize, errors), CopyToDevice(first + 1), compute] + (if completed then [Release(first + 1)] else [])
      && EventsOn(t, first + 2) ==
           [Wrap(first + 2, inputSize, gradInput), compute] + (if completed then [CopyToHost(first + 2), Release(first + 2)] else [])
  {
    var p := Prologue(batchSize, inputSize, outputSize, first, inputs, errors, gradInput);
    var tail := if completed then Epilogue(first) else [];
    PrologueLifecycles(batchSize, inputSize, outputSize, first, inputs, errors, gradInput);
    EpilogueLifecycles(first);
    EventsOnConcat(p, tail, first);
    EventsOnConcat(p, tail, first + 1);
    EventsOnConcat(p, tail, first + 2);
  }

  lemma PrologueLifecycles(batchSize: int, inputSize: int, outputSize: int, first: HandleId,
                           inputs: HostBuffer, errors: HostBuffer, gradInput: HostBuffer)
    ensures var p := Prologue(batchSize, inputSize, outputSize, first, inputs, errors, gradInput);
      var compute := Compute(batchSize, first, first + 1, first + 2);
      && EventsOn(p, first) == [Wrap(first, inputSize, inputs), CopyToDevice(first), compute]
      && EventsOn(p, first + 1) == [Wrap(first + 1, outputSize, errors), CopyToDevice(first + 1), compute]
      && EventsOn(p, first + 2) == [Wrap(first + 2, inputSize, gradInput), compute]
  {
    var start := [TimeCheck(StartCheckpoint)];
    var w := WrapEvents(first, inputSize, outputSize, inputs, errors, gradInput);
    var u := UploadEvents(batchSize, first);
    WrapEventsLifecycles(first, inputSize, outputSize, inputs, errors, gradInput);
    UploadEventsLifecycles(batchSize, first);
    EventsOnCons(TimeCheck(StartCheckpoint), [], first);
    EventsOnCons(TimeCheck(StartCheckpoint), [], first + 1);
    EventsOnCons(TimeCheck(StartCheckpoint), [], first + 2);
    EventsOnConcat3(start, w, u, first);
    EventsOnConcat3(start, w, u, first + 1);
    EventsOnConcat3(start, w, u, first + 2);
  }

  lemma WrapEventsLifecycles(first: HandleId, inputSize: int, outputSize: int,
                             inputs: HostBuffer, errors: HostBuffer, gradInput: HostBuffer)
    ensures var w := WrapEvents(first, inputSize, outputSize, inputs, errors, gradInput);
      && EventsOn(w, first) == [Wrap(first, inputSize, inputs)]
      && EventsOn(w, first + 1) == [Wrap(first + 1, outputSize, errors)]
      && EventsOn(w, first + 2) == [Wrap(first + 2, inputSize, gradInput)]
  {
    var wi, wo, wg := Wrap(first, inputSize, inputs), Wrap(first + 1, outputSize, errors), Wrap(first + 2, inputSize, gradInput);
    EventsOnTriple(wi, wo, wg, first);
    EventsOnTriple(wi, wo, wg, first + 1);
    EventsOnTriple(wi, wo, wg, first + 2);
  }

  lemma UploadEventsLifecycles(batchSize: int, first: HandleId)
    ensures var u := UploadEvents(batchSize, first);
      var compute := Compute(batchSize, first, first + 1, first + 2);
      && EventsOn(u, first) == [CopyToDevice(first), compute]
      && EventsOn(u, first + 1) == [CopyToDevice(first + 1), compute]
      && EventsOn(u, first + 2) == [compute]
  {
    var compute := Compute(batchSize, first, first + 1, first + 2);
    EventsOnTriple(CopyToDevice(first), CopyToDevice(first + 1), compute, first);
    EventsOnTriple(CopyToDevice(first), CopyToDevice(first + 1), compute, first + 1);
    EventsOnTriple(CopyToDevice(first), CopyToDevice(first + 1), compute, first + 2);
  }

  lemma EpilogueLifecycles(first: HandleId)
    ensures EventsOn(Epilogue(first), first) == [Release(first)]
    ensures EventsOn(Epilogue(first), first + 1) == [Release(first + 1)]
    ensures EventsOn(Epilogue(first), first + 2) == [CopyToHost(first + 2), Release(first + 2)]
  {
    var copy, end := [CopyToHost(first + 2)], [TimeCheck(EndCheckpoint)];
    var rel := ReleaseEvents(first);
    EventsOnCons(TimeCheck(EndCheckpoint), [], first);
    EventsOnCons(TimeCheck(EndCheckpoint), [], first + 1);
    EventsOnCons(TimeCheck(EndCheckpoint), [], first + 2);
    EventsOnCons(CopyToHost(first + 2), [], first);
    EventsOnCons(CopyToHost(first + 2), [], first + 1);
    EventsOnCons(CopyToHost(first + 2), [], first + 2);
    EventsOnTriple(Release(first), Release(first + 1), Release(first + 2), first);
    EventsOnTriple(Release(first), Release(first + 1), Release(first + 2), first + 1);
    EventsOnTriple(Release(first), Release(first + 1), Release(first + 2), first + 2);
    EventsOnConcat3(copy, rel, end, first);
    EventsOnConcat3(copy, rel, end, first + 1);
    EventsOnConcat3(copy, rel, end, first + 2);
  }

  /**
   * One call opens with the start checkpoint and wraps `inputs`, `errors` and
   * `gradInput` in that order with their sizes; it closes with the end
   * checkpoint exactly when the device step completed.
   */
  lemma HostTraceCheckpoints(batchSize: int, inputSize: int, outputSize: int, first: HandleId,
                             inputs: HostBuffer, errors: HostBuffer, gradInput: HostBuffer, completed: bool)
    ensures var t := HostTrace(batchSize, inputSize, outputSize, first, inputs, errors, gradInput, completed);
      && t[0] == TimeCheck(StartCheckpoint)
      && t[1..4] == [Wrap(first, inputSize, inputs), Wrap(first + 1, outputSize, errors), Wrap(first + 2, inputSize, gradInput)]
      && (t[|t| - 1] == TimeCheck(EndCheckpoint) <==> completed)
      && (TimeCheck(EndCheckpoint) in t <==> completed)
  {
    var t := HostTrace(batchSize, inputSize, outputSize, first, inputs, errors, gradInput, completed);
    var p := Prologue(batchSize, inputSize, outputSize, first, inputs, errors, gradInput);
    assert p == [TimeCheck(StartCheckpoint)] + WrapEvents(first, inputSize, outputSize, inputs, errors, gradInput)
                  + UploadEvents(batchSize, first);
    assert |p| == 7 && p[6] == Compute(batchSize, first, first + 1, first + 2);
    if completed {
      assert t[|t| - 1] == TimeCheck(EndCheckpoint);
    } else {
      assert t == p;
      assert forall i | 0 <= i < |p| :: p[i] != TimeCheck(EndCheckpoint);
    }
  }

  /**
   * Replayed on the handle state machine from any table whose ids are all below
   * `first`, one call is permitted throughout, touches no handle after
   * releasing it, and leaves the table described by AfterHostCall: all three
   * handles released after a completed device step, all three still live after
   * a failed one.
   */
  lemma HostTraceReplays(hs: Handles, batchSize: int, inputSize: int, outputSize: int, first: HandleId,
                         inputs: HostBuffer, errors: HostBuffer, gradInput: HostBuffer, completed: bool)
    requires forall h | h in hs :: h < first
    ensures var t := HostTrace(batchSize, inputSize, outputSize, first, inputs, errors, gradInput, completed);
      && Run(hs, t) == Some(AfterHostCall(hs, inputSize, outputSize, first, inputs, errors, gradInput, completed))
      && NoUseAfterRelease(t)
    ensures var after := AfterHostCall(hs, inputSize, outputSize, first, inputs, errors, gradInput, completed);
      forall h | first <= h < first + 3 :: h in after && (after[h].state == Released <==> completed)
  {
    var p := Prologue(batchSize, inputSize, outputSize, first, inputs, errors, gradInput);
    var tail := if completed then Epilogue(first) else [];
    PrologueReplays(hs, batchSize, inputSize, outputSize, first, inputs, errors, gradInput);
    EpilogueReplays(hs, inputSize, outputSize, first, inputs, errors, gradInput);
    RunConcat(hs, p, tail);
    assert !completed ==> p + tail == p;
    RunNeverTouchesReleased(hs, p + tail);
  }

  lemma PrologueReplays(hs: Handles, batchSize: int, inputSize: int, outputSize: int, first: HandleId,
                        inputs: HostBuffer, errors: HostBuffer, gradInput: HostBuffer)
    requires forall h | h in hs :: h < first
    ensures Run(hs, Prologue(batchSize, inputSize, outputSize, first, inputs, errors, gradInput))
         == Some(AfterHostCall(hs, inputSize, outputSize, first, inputs, errors, gradInput, false))
  {
    var start := [TimeCheck(StartCheckpoint)];
    var w := WrapEvents(first, inputSize, outputSize, inputs, errors, gradInput);
    var u := UploadEvents(batchSize, first);
    var wrapped := AfterWraps(hs, first, inputSize, outputSize, inputs, errors, gradInput);
    RunCons(hs, TimeCheck(StartCheckpoint), []);
    WrapReplays(hs, first, inputSize, outputSize, inputs, errors, gradInput);
    UploadReplays(hs, batchSize, first, inputSize, outputSize, inputs, errors, gradInput);
    RunConcat(hs, start, w);
    RunConcat(hs, start + w, u);
  }

  lemma WrapReplays(hs: Handles, first: HandleId, inputSize: int, outputSize: int,
                    inputs: HostBuffer, errors: HostBuffer, gradInput: HostBuffer)
    requires forall h | h in hs :: h < first
    ensures Run(hs, WrapEvents(first, inputSize, outputSize, inputs, errors, gradInput))
         == Some(AfterWraps(hs, first, inputSize, outputSize, inputs, errors, gradInput))
  {
    var wi, wo, wg := Wrap(first, inputSize, inputs), Wrap(first + 1, outputSize, errors), Wrap(first + 2, inputSize, gradInput);
    assert WrapEvents(first, inputSize, outputSize, inputs, errors, gradInput) == [wi] + ([wo] + ([wg] + []));
    var m1 := hs[first := Handle(inputs, inputSize, Wrapped)];
    var m2 := m1[first + 1 := Handle(errors, outputSize, Wrapped)];
    RunCons(m2, wg, []);
    RunCons(m1, wo, [wg] + []);
    RunCons(hs, wi, [wo] + ([wg] + []));
  }

  lemma UploadReplays(hs: Handles, batchSize: int, first: HandleId, inputSize: int, outputSize: int,
                      inputs: HostBuffer, errors: HostBuffer, gradInput: HostBuffer)
    ensures Run(AfterWraps(hs, first, inputSize, outputSize, inputs, errors, gradInput), UploadEvents(batchSize, first))
         == Some(AfterHostCall(hs, inputSize, outputSize, first, inputs, errors, gradInput, false))
  {
    var m := AfterWraps(hs, first, inputSize, outputSize, inputs, errors, gradInput);
    var c0, c1, compute := CopyToDevice(first), CopyToDevice(first + 1), Compute(batchSize, first, first + 1, first + 2);
    assert UploadEvents(batchSize, first) == [c0] + ([c1] + ([compute] + []));
    var m1 := m[first := m[first].(state := OnDevice)];
    var m2 := m1[first + 1 := m1[first + 1].(state := OnDevice)];
    RunCons(m2, compute, []);
    RunCons(m1, c1, [compute] + []);
    RunCons(m, c0, [c1] + ([compute] + []));
    assert m2 == AfterHostCall(hs, inputSize, outputSize, first, inputs, errors, gradInput, false);
  }

  lemma EpilogueReplays(hs: Handles, inputSize: int, outputSize: int, first: HandleId,
                        inputs: HostBuffer, errors: HostBuffer, gradInput: HostBuffer)
    ensures Run(AfterHostCall(hs, inputSize, outputSize, first, inputs, errors, gradInput, false), Epilogue(first))
         == Some(AfterHostCall(hs, inputSize, outputSize, first, inputs, errors, gradInput, true))
  {
    var m := AfterHostCall(hs, inputSize, outputSize, first, inputs, errors, gradInput, false);
    var copy, end := [CopyToHost(first + 2)], [TimeCheck(EndCheckpoint)];
    var rel := ReleaseEvents(first);
    var n1 := m[first + 2 := m[first + 2].(state := CopiedToHost)];
    RunCons(m, CopyToHost(first + 2), []);
    ReleaseReplays(n1, first);
    var n4 := n1[first := n1[first].(state := Released)]
                [first + 1 := n1[first + 1].(state := Released)]
                [first + 2 := n1[first + 2].(state := Released)];
    RunCons(n4, TimeCheck(EndCheckpoint), []);
    RunConcat(m, copy, rel);
    RunConcat(m, copy + rel, end);
    assert n4 == AfterHostCall(hs, inputSize, outputSize, first, inputs, errors, gradInput, true);
  }

  lemma ReleaseReplays(hs: Handles, first: HandleId)
    requires Live(hs, first) && Live(hs, first + 1) && Live(hs, first + 2)
    ensures Run(hs, ReleaseEvents(first))
         == Some(hs[first := hs[first].(state := Released)]
                   [first + 1 := hs[first + 1].(state := Released)]
                   [first + 2 := hs[first + 2].(state := Released)])
  {
    var r0, r1, r2 := Release(first), Release(first + 1), Release(first + 2);
    assert ReleaseEvents(first) == [r0] + ([r1] + ([r2] + []));
    var m1 := hs[first := hs[first].(state := Released)];
    var m2 := m1[first + 1 := m1[first + 1].(state := Released)];
    RunCons(m2, r2, []);
    RunCons(m1, r1, [r2] + []);
    RunCons(hs, r0, [r1] + ([r2] + []));
  }

  /**
   * When the device-buffer overload is the base class's, the call throws out of
   * the device step: the end checkpoint is never recorded, nothing is copied
   * back, and the three handles it created are left unreleased.
   */
  lemma BaseStepLeaksHandles(hs: Handles, batchSize: int, inputSize: int, outputSize: int, first: HandleId,
                             inputs: HostBuffer, errors: HostBuffer, gradInput: HostBuffer)
    requires forall h | h in hs :: h < first
    ensures var completed := BaseBackpropErrorsWrappers(batchSize, first, first + 1, first + 2).Pass?;
      var t := HostTrace(batchSize, inputSize, outputSize, first, inputs, errors, gradInput, completed);
      && TimeCheck(EndCheckpoint) !in t
      && CopyToHost(first + 2) !in t
      && Run(hs, t).Some?
      && forall h | first <= h < first + 3 :: Live(Run(hs, t).value, h)
  {
    var p := Prologue(batchSize, inputSize, outputSize, first, inputs, errors, gradInput);
    HostTraceCheckpoints(batchSize, inputSize, outputSize, first, inputs, errors, gradInput, false);
    HostTraceReplays(hs, batchSize, inputSize, outputSize, first, inputs, errors, gradInput, false);
    assert p == [TimeCheck(StartCheckpoint)] + WrapEvents(first, inputSize, outputSize, inputs, errors, gradInput)
                  + UploadEvents(batchSize, first);
    assert forall i | 0 <= i < |p| :: p[i] != CopyToHost(first + 2);
  }
}
