/**
 * The value side of the activation-layer backward pass: which implementation
 * the factories build, the geometry an instance fixes at construction, the
 * buffer sizes it derives from a batch size, and the errors it raises.
 */
module ActivationBackprop {
  import Decimal
  import opened Wrappers

  /** The concrete implementations: the host reference and the naive accelerator kernel. */
  datatype Variant = Cpu | GpuNaive

  /**
   * The fields of an instance of the backward pass. The execution context is
   * not kept here: the host entry point receives it as an argument. The
   * activation function, which the base class only forwards to the variants,
   * is not kept either.
   */
  datatype Fields = Fields(variant: Variant, numPlanes: int, inputImageSize: int, outputImageSize: int)

  /**
   * An instance as the constructor leaves it: the output side of an
   * elementwise layer has the input's spatial size. The geometry never changes.
   */
  type Backprop = b: Fields | b.outputImageSize == b.inputImageSize
    witness Fields(Cpu, 0, 0, 0)

  /** The two exceptions of this layer. */
  datatype Error =
    | UnknownVariant(idx: int)   // instanceSpecific was given an id that names no variant
    | WrappersNotImplemented     // the base device-buffer backpropErrors was reached

  datatype Result<T> = Ok(value: T) | Err(error: Error)

  /** Completion of a step that produces nothing but may throw. */
  datatype Outcome = Pass | Fail(error: Error)

  const UnknownVariantPrefix := "ActivationBackprop::instanceSpecific, idx not known: "
  const WrappersNotImplementedText := "ActivationBackprop::backpropErrors wrappers not implemented"

  /** The text of the exception raised for `e`. */
  function Message(e: Error): (m: string)
    ensures e.UnknownVariant? ==> |m| > |UnknownVariantPrefix| && m[..|UnknownVariantPrefix|] == UnknownVariantPrefix
  {
    match e
    case UnknownVariant(idx) => UnknownVariantPrefix + Decimal.IntToString(idx)
    case WrappersNotImplemented => WrappersNotImplementedText
  }

  /** The id a variant is selected by in instanceSpecific. */
  function VariantId(v: Variant): (id: int)
    ensures id == 0 || id == 1
  {
    match v
    case Cpu => 0
    case GpuNaive => 1
  }

  // ---------------------------------------------------------------- construction

  /** The constructor: the output side of an elementwise layer has the input's spatial size. */
  function New(variant: Variant, numPlanes: int, inputImageSize: int): (b: Backprop)
    ensures b.variant == variant && b.numPlanes == numPlanes
    ensures b.inputImageSize == inputImageSize && b.outputImageSize == inputImageSize
  {
    Fields(variant, numPlanes, inputImageSize, inputImageSize)
  }

  /** The production default: always the naive accelerator variant. */
  function Instance(numPlanes: int, inputImageSize: int): (b: Backprop)
    ensures b.variant == GpuNaive
    ensures b.numPlanes == numPlanes && b.inputImageSize == b.outputImageSize == inputImageSize
  {
    New(GpuNaive, numPlanes, inputImageSize)
  }

  /** The default for tests: currently the same naive accelerator variant. */
  function InstanceForTest(numPlanes: int, inputImageSize: int): (b: Backprop)
    ensures b.variant == GpuNaive
    ensures b.numPlanes == numPlanes && b.inputImageSize == b.outputImageSize == inputImageSize
  {
    New(GpuNaive, numPlanes, inputImageSize)
  }

  /** Builds the variant named by `idx`; any other id is a configuration error carrying that id. */
  function InstanceSpecific(idx: int, numPlanes: int, inputImageSize: int): (r: Result<Backprop>)
    ensures r.Ok? <==> idx == 0 || idx == 1
    ensures r.Ok? ==> VariantId(r.value.variant) == idx && r.value == New(r.value.variant, numPlanes, inputImageSize)
    ensures r.Err? ==> r.error == UnknownVariant(idx)
  {
    if idx == 0 then Ok(New(Cpu, numPlanes, inputImageSize))
    else if idx == 1 then Ok(New(GpuNaive, numPlanes, inputImageSize))
    else Err(UnknownVariant(idx))
  }

  /** Selecting a variant by its own id builds exactly that variant. */
  lemma InstanceSpecificOfVariantId(v: Variant, numPlanes: int, inputImageSize: int)
    ensures InstanceSpecific(VariantId(v), numPlanes, inputImageSize) == Ok(New(v, numPlanes, inputImageSize))
  {
  }

  /** Both default factories agree with selecting id 1. */
  lemma DefaultsAreGpuNaive(numPlanes: int, inputImageSize: int)
    ensures Instance(numPlanes, inputImageSize) == InstanceForTest(numPlanes, inputImageSize)
    ensures InstanceSpecific(1, numPlanes, inputImageSize) == Ok(Instance(numPlanes, inputImageSize))
  {
  }

  /**
   * An unknown id fails with a message that ends with the id's decimal rendering,
   * from which the id can be read back.
   */
  lemma UnknownVariantMessageNamesId(idx: int, numPlanes: int, inputImageSize: int)
    requires idx != 0 && idx != 1
    ensures InstanceSpecific(idx, numPlanes, inputImageSize).Err?
    ensures var m := Message(InstanceSpecific(idx, numPlanes, inputImageSize).error);
      |m| > |UnknownVariantPrefix| && Decimal.ParseInt(m[|UnknownVariantPrefix|..]) == Some(idx)
  {
    var m := Message(UnknownVariant(idx));
    assert m[|UnknownVariantPrefix|..] == Decimal.IntToString(idx);
    Decimal.ParseIntToString(idx);
  }

  /** Different unknown ids give different messages. */
  lemma UnknownVariantMessagesDiffer(a: int, b: int)
    requires a != b
    ensures Message(UnknownVariant(a)) != Message(UnknownVariant(b))
  {
    var ma, mb := Message(UnknownVariant(a)), Message(UnknownVariant(b));
    assert ma[|UnknownVariantPrefix|..] == Decimal.IntToString(a);
    assert mb[|UnknownVariantPrefix|..] == Decimal.IntToString(b);
    Decimal.IntToStringInjective(a, b);
  }

  // ---------------------------------------------------------------- sizes

  /** The range of a C++ `int` (32-bit two's complement). */
  predicate IsInt32(x: int) { -0x8000_0000 <= x < 0x8000_0000 }

  /**
   * `batchSize * numPlanes * imageSize * imageSize`, evaluated left to right in
   * `int`, never leaves the 32-bit range (signed overflow is undefined in C++).
   */
  predicate ProductDefined(batchSize: int, numPlanes: int, imageSize: int) {
    && IsInt32(batchSize * numPlanes)
    && IsInt32(batchSize * numPlanes * imageSize)
    && IsInt32(batchSize * numPlanes * imageSize * imageSize)
  }

  lemma MulIsZero(x: int, y: int)
    ensures x * y == 0 <==> x == 0 || y == 0
  {
  }

  lemma MulMonotone(x: int, y: int, k: int)
    requires x <= y && k >= 0
    ensures x * k <= y * k
  {
  }

  /** When the product is zero, and that it is non-negative for a non-negative batch and plane count. */
  lemma ProductSign(batchSize: int, numPlanes: int, imageSize: int)
    ensures batchSize * numPlanes * imageSize * imageSize == 0 <==> batchSize == 0 || numPlanes == 0 || imageSize == 0
    ensures batchSize >= 0 && numPlanes >= 0 ==> batchSize * numPlanes * imageSize * imageSize >= 0
  {
    var p := batchSize * numPlanes;
    MulIsZero(batchSize, numPlanes);
    MulIsZero(p, imageSize);
    MulIsZero(p * imageSize, imageSize);
    assert p * imageSize * imageSize == p * (imageSize * imageSize);
    if batchSize >= 0 && numPlanes >= 0 {
      MulMonotone(0, batchSize, numPlanes);
      MulMonotone(0, p, imageSize * imageSize);
    }
  }

  /** Number of floats in the layer's input (and in the input-side gradient) for a batch. */
  function InputSize(b: Backprop, batchSize: int): (r: int)
    requires ProductDefined(batchSize, b.numPlanes, b.inputImageSize)
    ensures IsInt32(r)
    ensures batchSize >= 0 && b.numPlanes >= 0 ==> r >= 0
    ensures r == 0 <==> batchSize == 0 || b.numPlanes == 0 || b.inputImageSize == 0
  {
    ProductSign(batchSize, b.numPlanes, b.inputImageSize);
    batchSize * b.numPlanes * b.inputImageSize * b.inputImageSize
  }

  /** Number of floats in the layer's output-side gradient for a batch. */
  function OutputSize(b: Backprop, batchSize: int): (r: int)
    requires ProductDefined(batchSize, b.numPlanes, b.outputImageSize)
    ensures IsInt32(r)
    ensures batchSize >= 0 && b.numPlanes >= 0 ==> r >= 0
    ensures r == 0 <==> batchSize == 0 || b.numPlanes == 0 || b.outputImageSize == 0
  {
    ProductSign(batchSize, b.numPlanes, b.outputImageSize);
    batchSize * b.numPlanes * b.outputImageSize * b.outputImageSize
  }

  /** For every instance the two sizes coincide, whatever the batch. */
  lemma OutputSizeEqualsInputSize(b: Backprop, batchSize: int)
    requires ProductDefined(batchSize, b.numPlanes, b.inputImageSize)
    ensures ProductDefined(batchSize, b.numPlanes, b.outputImageSize)
    ensures OutputSize(b, batchSize) == InputSize(b, batchSize)
  {
  }

  /** Three planes of 8x8 images, batch of 5: 960 floats. */
  lemma ExampleInputSize()
    ensures ProductDefined(5, 3, 8) && InputSize(New(Cpu, 3, 8), 5) == 960
  {
  }
}
