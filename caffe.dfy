/**
 * The two collaborators every layer of the memory-estimation engine relies
 * on: the blob (a named, shaped buffer that a layer produces) and the
 * parsed layer-parameter record. Only what the ReLU and SoftmaxWithLoss
 * layers use is modelled.
 */
module Caffe {

  /** A blob shape: one extent per axis. Extents are never negative. */
  type Shape = seq<nat>

  /** The product of all extents; the empty product is 1. */
  function Product(dims: Shape): (p: nat)
    ensures p == 0 <==> exists k :: 0 <= k < |dims| && dims[k] == 0
    ensures |dims| == 1 ==> p == dims[0]
  {
    if |dims| == 0 then 1 else dims[0] * Product(dims[1..])
  }

  /**
   * The number of elements a blob of this shape holds: the product of its
   * extents, except that a blob without axes holds no elements.
   */
  function ShapeCount(shape: Shape): (n: nat)
  {
    if |shape| == 0 then 0 else Product(shape)
  }

  /** A blob holds no elements exactly when it has no axis or a zero extent. */
  lemma ShapeCountZero(shape: Shape)
    ensures ShapeCount(shape) == 0 <==> |shape| == 0 || exists k :: 0 <= k < |shape| && shape[k] == 0
  {
  }

  /**
   * A named, shaped buffer. The name, the shape, the producing layer and
   * the extra-copy flag are fixed when the blob is created; only the
   * device-residency flag changes afterwards.
   */
  class CaffeBlob {
    const name: string
    const shape: Shape
    /** Name of the layer that created the blob (a non-owning back-reference). */
    const producer: string
    /** The blob needs a second concurrent copy (e.g. for its gradient). */
    const extraCopy: bool
    /** The blob stays resident on the accelerator during the pass. */
    var onGPU: bool

    constructor (name: string, shape: Shape, producer: string, onGPU: bool := false, extraCopy: bool := false)
      ensures this.name == name && this.shape == shape && this.producer == producer
      ensures this.onGPU == onGPU && this.extraCopy == extraCopy
    {
      this.name := name;
      this.shape := shape;
      this.producer := producer;
      this.onGPU := onGPU;
      this.extraCopy := extraCopy;
    }

    /** Number of elements of the blob. */
    function Count(): (n: nat)
    {
      ShapeCount(shape)
    }

    /**
     * The new residency depends only on the argument, so setting the flag
     * twice leaves the blob as setting it once does.
     */
    method SetOnGPU(onGPU: bool)
      modifies this`onGPU
      ensures this.onGPU == onGPU
    {
      this.onGPU := onGPU;
    }
  }

  /**
   * The parsed record a layer is built from, reduced to the two fields the
   * modelled layers read: the layer's name and its declared top (output)
   * blob names, in declaration order.
   */
  datatype LayerParameter = LayerParameter(name: string, tops: seq<string>)
}
