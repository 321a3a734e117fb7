/**
 * The combined softmax-and-loss layer. It delegates the normalisation to a
 * private softmax sub-layer whose output blob is never visible to the rest
 * of the network, and therefore folds that hidden blob's memory into its
 * own extra-memory figure.
 */
module SoftmaxWithLoss {
  import opened Caffe

  /**
   * Stand-in for the softmax layer, whose code is not part of this model.
   * It keeps its parameter record and inputs and gives each declared top a
   * new blob. The shape of those blobs and the layer's own extra memory are
   * decided by code that is not modelled, so they are given to it.
   */
  class SoftmaxLayer {
    const param: LayerParameter
    const inputs: seq<CaffeBlob>
    const outputs: seq<CaffeBlob>
    const extraMemory: nat

    constructor (param: LayerParameter, ins: seq<CaffeBlob>, outShape: Shape, extraMemory: nat)
      ensures this.param == param && inputs == ins && this.extraMemory == extraMemory
      ensures |outputs| == |param.tops|
      ensures forall k :: 0 <= k < |outputs| ==>
        fresh(outputs[k]) && outputs[k].name == param.tops[k] && outputs[k].shape == outShape
    {
      var bs: seq<CaffeBlob> := [];
      for i := 0 to |param.tops|
        invariant |bs| == i
        invariant forall k :: 0 <= k < i ==>
          fresh(bs[k]) && bs[k].name == param.tops[k] && bs[k].shape == outShape
      {
        var b := new CaffeBlob(param.tops[i], outShape, param.name);
        bs := bs + [b];
      }
      this.param := param;
      inputs := ins;
      outputs := bs;
      this.extraMemory := extraMemory;
    }

    function MemoryOther(): (m: nat)
    {
      extraMemory
    }
  }

  /** Sum of a sequence of element counts. */
  function Sum(s: seq<nat>): (n: nat)
  {
    if |s| == 0 then 0 else s[0] + Sum(s[1..])
  }

  /**
   * The extra memory of the layer, from the sub-layer's own extra memory
   * and the element counts of the sub-layer's outputs: four bytes per
   * element of the first output, and of the second output when there is
   * one. Outputs beyond the second are not counted.
   */
  function MemoryOtherOf(subMemory: nat, counts: seq<nat>): (m: nat)
    requires |counts| >= 1
    ensures m == subMemory + 4 * Sum(counts[..if |counts| > 1 then 2 else 1])
    ensures |counts| <= 2 ==> m == subMemory + 4 * Sum(counts)
    ensures |counts| == 1 ==> m == subMemory + 4 * counts[0]
    ensures m >= subMemory + 4 * counts[0]
  {
    assert Sum(counts[..1]) == counts[0] by {
      assert counts[..1][1..] == [];
    }
    assert |counts| > 1 ==> Sum(counts[..2]) == counts[0] + counts[1] by {
      if |counts| > 1 {
        assert counts[..2][1..] == [counts[1]];
        assert counts[..2][1..][1..] == [];
      }
    }
    assert |counts| <= 2 ==> counts[..if |counts| > 1 then 2 else 1] == counts;
    subMemory + 4 * counts[0] + (if |counts| > 1 then 4 * counts[1] else 0)
  }

  /** The extra memory never shrinks when the sub-layer's figures grow. */
  lemma MemoryOtherMonotone(subMemory: nat, counts: seq<nat>, subMemory': nat, counts': seq<nat>)
    requires |counts| >= 1 && |counts'| == |counts|
    requires subMemory <= subMemory'
    requires forall k :: 0 <= k < |counts| ==> counts[k] <= counts'[k]
    ensures MemoryOtherOf(subMemory, counts) <= MemoryOtherOf(subMemory', counts')
  {
  }

  class SoftmaxWithLossLayer {
    const name: string
    const inputs: seq<CaffeBlob>
    /** The visible outputs, one slot per declared top. */
    const out: array<CaffeBlob?>
    /** The private softmax sub-layer. */
    const softmaxLayer: SoftmaxLayer

    /**
     * Builds the sub-layer on a copy of the record whose only top is the
     * synthetic name freshTop, creates the loss output and, when a second
     * top is declared, the probability output, and marks every input
     * device-resident. freshTop stands for the random unique identifier of
     * the source: it is none of the inputs' names and none of the declared
     * tops. subShape and subMemory are what the softmax code decides for
     * its output shape and its own extra memory.
     *
     * Without a declared top, or with a second top but no input, the source
     * fails on an index; the first two requires exclude those inputs.
     */
    constructor (param: LayerParameter, ins: seq<CaffeBlob>, freshTop: string, subShape: Shape, subMemory: nat)
      requires |param.tops| >= 1
      requires |param.tops| > 1 ==> |ins| >= 1
      requires freshTop !in param.tops
      requires forall k :: 0 <= k < |ins| ==> ins[k].name != freshTop
      modifies set k | 0 <= k < |ins| :: ins[k]
      ensures name == param.name && inputs == ins
      // the private softmax sub-layer
      ensures fresh(softmaxLayer)
      ensures softmaxLayer.param == param.(tops := [freshTop]) && softmaxLayer.inputs == ins
      ensures softmaxLayer.extraMemory == subMemory
      ensures |softmaxLayer.outputs| == 1 && softmaxLayer.outputs[0].shape == subShape
      ensures softmaxLayer.outputs[0] !in ins && softmaxLayer.outputs[0].name == freshTop
      // the visible outputs
      ensures fresh(out) && out.Length == |param.tops|
      ensures out[0] != null && fresh(out[0]) && out[0] !in ins
      ensures out[0].name == param.tops[0] && out[0].shape == [1] && out[0].Count() == 1
      ensures out[0].onGPU && out[0].extraCopy && out[0].producer == param.name
      ensures |param.tops| > 1 ==>
        out[1] != null && fresh(out[1]) && out[1] !in ins && out[1] != out[0] &&
        out[1].name == param.tops[1] && out[1].shape == ins[0].shape &&
        out[1].onGPU && !out[1].extraCopy && out[1].producer == param.name
      ensures forall k :: 2 <= k < out.Length ==> out[k] == null
      // the inputs
      ensures forall k :: 0 <= k < |ins| ==> ins[k].onGPU
      // the hidden blob's memory
      ensures MemoryOther() == subMemory + 4 * ShapeCount(subShape)
    {
      name := param.name;
      inputs := ins;
      out := new CaffeBlob?[|param.tops|](_ => null);
      softmaxLayer := new SoftmaxLayer(param.(tops := [freshTop]), ins, subShape, subMemory);
      new;
      out[0] := new CaffeBlob(param.tops[0], [1], param.name, true, true);
      if |param.tops| > 1 {
        out[1] := new CaffeBlob(param.tops[1], ins[0].shape, param.name, true);
      }
      ghost var created := out[..];
      for i := 0 to |ins|
        invariant out[..] == created
        invariant forall k :: 0 <= k < i ==> ins[k].onGPU
        invariant out[0].onGPU && (|param.tops| > 1 ==> out[1].onGPU)
      {
        ins[i].SetOnGPU(true);
      }
      assert SubCounts() == [ShapeCount(subShape)];
    }

    /** The element counts of the sub-layer's outputs, in order. */
    function SubCounts(): (c: seq<nat>)
    {
      seq(|softmaxLayer.outputs|, k requires 0 <= k < |softmaxLayer.outputs| => softmaxLayer.outputs[k].Count())
    }

    /**
     * Extra memory beyond the layer's visible blobs: the sub-layer's own,
     * plus four bytes per element of the sub-layer's hidden output(s).
     */
    function MemoryOther(): (m: nat)
      requires |softmaxLayer.outputs| >= 1
      ensures m >= softmaxLayer.MemoryOther() + 4 * softmaxLayer.outputs[0].Count()
      ensures |softmaxLayer.outputs| == 1 ==>
        m == softmaxLayer.MemoryOther() + 4 * softmaxLayer.outputs[0].Count()
      ensures |softmaxLayer.outputs| > 1 ==>
        m == softmaxLayer.MemoryOther() + 4 * (softmaxLayer.outputs[0].Count() + softmaxLayer.outputs[1].Count())
    {
      MemoryOtherOf(softmaxLayer.MemoryOther(), SubCounts())
    }
  }
}
