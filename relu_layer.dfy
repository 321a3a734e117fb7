/**
 * The rectified-linear activation layer. It adds no workspace of its own;
 * what it decides is, position by position, whether an output reuses the
 * input blob object (an in-place layer) or is a new blob of the same shape.
 */
module ReLU {
  import opened Caffe

  class ReLULayer {
    const name: string
    /** The input blobs, borrowed from upstream layers. */
    const inputs: seq<CaffeBlob>
    /** The output blobs, one slot per input. */
    const out: array<CaffeBlob?>
    /** The top names the layer was declared with. */
    ghost const tops: seq<string>

    /**
     * The wiring that holds for the lifetime of the layer: one output per
     * input, each of the input's shape; an output is the input object itself
     * exactly when the declared top name is the input's name, and otherwise
     * it is a blob of the declared name that is none of the inputs.
     */
    ghost predicate Valid()
      reads this, out
    {
      |tops| >= |inputs| && out.Length == |inputs| &&
      forall i :: 0 <= i < |inputs| ==>
        out[i] != null && out[i].shape == inputs[i].shape &&
        (tops[i] == inputs[i].name ==> out[i] == inputs[i]) &&
        (tops[i] != inputs[i].name ==> out[i].name == tops[i] && out[i] !in inputs)
    }

    /**
     * Wires the outputs. Top names beyond the number of inputs are ignored;
     * fewer top names than inputs is an index error in the source, hence the
     * requires. No input blob is changed.
     */
    constructor (name: string, ins: seq<CaffeBlob>, topNames: seq<string>)
      requires |topNames| >= |ins|
      ensures this.name == name && inputs == ins && tops == topNames
      ensures Valid() && fresh(out)
      ensures forall i :: 0 <= i < |ins| && topNames[i] != ins[i].name ==>
        fresh(out[i]) && out[i].producer == name && !out[i].onGPU && !out[i].extraCopy
      ensures forall i, j :: 0 <= i < j < |ins| && topNames[i] != ins[i].name && topNames[j] != ins[j].name ==>
        out[i] != out[j]
      ensures forall k :: 0 <= k < |ins| ==> ins[k].onGPU == old(ins[k].onGPU)
    {
      var o := new CaffeBlob?[|ins|];
      for i := 0 to |ins|
        invariant forall k :: 0 <= k < i ==>
          o[k] != null && o[k].shape == ins[k].shape &&
          (topNames[k] == ins[k].name ==> o[k] == ins[k]) &&
          (topNames[k] != ins[k].name ==>
             fresh(o[k]) && o[k].name == topNames[k] && o[k].producer == name &&
             !o[k].onGPU && !o[k].extraCopy)
        invariant forall k, l :: 0 <= k < l < i && topNames[k] != ins[k].name && topNames[l] != ins[l].name ==>
          o[k] != o[l]
      {
        if topNames[i] == ins[i].name {
          o[i] := ins[i];
        } else {
          o[i] := new CaffeBlob(topNames[i], ins[i].shape, name);
        }
      }
      this.name := name;
      inputs := ins;
      out := o;
      tops := topNames;
    }

    /** Builds the layer from its parsed record: its name and all of its tops, in order. */
    static method CreateFromProto(param: LayerParameter, ins: seq<CaffeBlob>) returns (layer: ReLULayer)
      requires |param.tops| >= |ins|
      ensures fresh(layer) && fresh(layer.out)
      ensures layer.name == param.name && layer.inputs == ins && layer.tops == param.tops
      ensures layer.Valid()
      ensures forall i :: 0 <= i < |ins| && param.tops[i] != ins[i].name ==>
        fresh(layer.out[i]) && layer.out[i].producer == param.name &&
        !layer.out[i].onGPU && !layer.out[i].extraCopy
      ensures forall i, j :: 0 <= i < j < |ins| && param.tops[i] != ins[i].name && param.tops[j] != ins[j].name ==>
        layer.out[i] != layer.out[j]
      ensures forall k :: 0 <= k < |ins| ==> ins[k].onGPU == old(ins[k].onGPU)
    {
      layer := new ReLULayer(param.name, ins, param.tops);
    }

    /** The identifier of this layer kind. */
    function LayerTypeString(): (s: string)
      ensures s == "ReLULayer"
    {
      "ReLULayer"
    }

    /** An output is the input object itself exactly when the names agree. */
    lemma AliasedIffSameName(i: nat)
      requires Valid() && i < |inputs|
      ensures out[i] == inputs[i] <==> tops[i] == inputs[i].name
      ensures out[i].Count() == inputs[i].Count()
    {
    }
  }
}
