# Caffe layer memory model: ReLU and SoftmaxWithLoss

This project models two layer kinds of the U-Net segmentation plugin's memory
estimator for Caffe network descriptions. Each layer is built from its input
blobs and creates its output blobs. Each layer also reports `memoryOther`:
the bytes it needs beyond the blobs it declares.

- `caffe.dfy` (module `Caffe`): the blob (`CaffeBlob`) and the parsed layer
  record (`LayerParameter`). Only the parts the two layers use are here. A
  blob has a fixed name, shape, producer and extra-copy flag, plus a mutable
  `onGPU` flag. Its `Count()` is the product of its extents, and 0 for a blob without axes.
- `relu_layer.dfy` (module `ReLU`): `ReLULayer`. Its constructor fills a new
  output array in a loop, one slot per input. A slot holds the input object
  itself (in place) when the declared top name equals the input's name.
  Otherwise it holds a new blob of the input's shape.
- `softmax_with_loss_layer.dfy` (module `SoftmaxWithLoss`):
  `SoftmaxWithLossLayer`. It builds a private softmax sub-layer whose only
  top is a fresh synthetic name. It creates the loss output and, when
  declared, the probability output. It marks every input device-resident.
  Its `memoryOther` adds four bytes per element of the sub-layer's hidden
  output(s) to the sub-layer's own figure.
- `scenarios.dfy` (module `Scenarios`): two small networks and what the
  contracts let a caller conclude about them.

Object identity models in-place aliasing: an in-place output is the input
object itself (`out[i] == inputs[i]`). Freshness (`fresh(out[i])`) means the
blob was newly allocated.

## Model

| member | source | states |
|---|---|---|
| `Caffe.Product` | src/de/unifreiburg/unet/SoftmaxWithLossLayer.java:82-84 | the element count behind `count()`: it is zero exactly when some extent is zero, and a one-axis shape counts its extent |
| `Caffe.ShapeCountZero` | src/de/unifreiburg/unet/SoftmaxWithLossLayer.java:82-84 | a blob holds no elements exactly when it has no axis or a zero extent |
| `Caffe.CaffeBlob.constructor` | src/de/unifreiburg/unet/SoftmaxWithLossLayer.java:62-66 | a new blob has the given name, shape, producer and flags; omitted flags default to false |
| `Caffe.CaffeBlob.SetOnGPU` | src/de/unifreiburg/unet/SoftmaxWithLossLayer.java:67 | only the `onGPU` flag changes, and its new value is the argument whatever it was before, so setting it twice equals setting it once |
| `ReLU.ReLULayer.constructor` | src/de/unifreiburg/unet/ReLULayer.java:37-44 | a new output array with one slot per input, each slot non-null with the input's shape; when the top name equals the input's name the slot is that input object; otherwise it is a new blob named after the top, produced by this layer, with both flags false, none of the inputs, and distinct from every other new output; no input's `onGPU` changes; the constructor needs at least as many top names as inputs |
| `ReLU.ReLULayer.CreateFromProto` | src/de/unifreiburg/unet/ReLULayer.java:46-51 | the layer gets the record's name and all of its top names in their original order, with the same wiring guarantees as the constructor: aliasing when names agree, otherwise new blobs of the input's shape, produced by this layer, with both flags false and pairwise distinct |
| `ReLU.ReLULayer.LayerTypeString` | src/de/unifreiburg/unet/ReLULayer.java:53-54 | the type identifier is always `"ReLULayer"` |
| `ReLU.ReLULayer.AliasedIffSameName` | src/de/unifreiburg/unet/ReLULayer.java:40-43 | in a built layer, output i is input i exactly when top name i is input i's name (both directions), and an output's element count equals its input's |
| `SoftmaxWithLoss.SoftmaxLayer.constructor` | src/de/unifreiburg/unet/SoftmaxWithLossLayer.java:61 | stand-in for the unmodelled softmax layer: it keeps the record and the inputs it is given and has one new output per declared top, named after it |
| `SoftmaxWithLoss.MemoryOtherOf` | src/de/unifreiburg/unet/SoftmaxWithLossLayer.java:80-85 | the extra memory is the sub-layer's own plus four bytes per element of the sub-layer's first output and of its second output when it has one; for at most two outputs that is four bytes per element of all of them; with one output the second term vanishes; the result is never below the sub-layer's memory plus four bytes per element of the first output |
| `SoftmaxWithLoss.MemoryOtherMonotone` | src/de/unifreiburg/unet/SoftmaxWithLossLayer.java:81-84 | larger sub-layer memory and larger output counts never give a smaller result |
| `SoftmaxWithLoss.SoftmaxWithLossLayer.constructor` | src/de/unifreiburg/unet/SoftmaxWithLossLayer.java:55-68 | the private sub-layer is new and gets the same inputs and a copy of the record whose only top is the fresh name, which is none of the visible names; output 0 is new, named after top 0, shape `[1]` (count 1), on the GPU and double-buffered; output 1 exists exactly when a second top is declared, is new, named after top 1, has input 0's shape, and is on the GPU but not double-buffered; further slots stay empty; every input ends on the GPU; the layer's extra memory is the sub-layer's plus four bytes per element of the hidden output |
| `SoftmaxWithLoss.SoftmaxWithLossLayer.MemoryOther` | src/de/unifreiburg/unet/SoftmaxWithLossLayer.java:80-85 | the sub-layer's memory plus four bytes per element of its first output, plus four bytes per element of its second output when it has one |
| `Scenarios.MixedReLU` | src/de/unifreiburg/unet/ReLULayer.java:40-43 | one layer can alias its first input in place while allocating a new same-shaped blob for its second |
| `Scenarios.LossOverScore` | src/de/unifreiburg/unet/SoftmaxWithLossLayer.java:55-85 | a loss layer over a 1x2x32x32 score yields a 1-element loss blob and a 1x2x32x32 probability blob, puts both inputs on the GPU, and needs 4·2048 extra bytes when the softmax output has the score's shape and no workspace |

## Left out

- The `Net` argument of both constructors: the network's blob registry, layer list and total-memory aggregation are not modelled.
- `NetworkLayer`, the base class, is not part of this model. Its constructor is taken to allocate one empty output slot per declared top. This is inferred from the guard on `_out[1]` in `SoftmaxWithLossLayer`.
- `SoftmaxLayer` is not part of this model. A stand-in keeps its record and inputs and creates one blob per top. Its output shape and its own `memoryOther` are outside this model, so they are constructor parameters.
- `CaffeBlob` is not part of this model. The stand-in keeps only its name, shape, producer, flags, `count` and `setOnGPU`. The producer is the layer's name, not a reference to the layer object.
- `Caffe.ShapeCount`: `CaffeBlob.count()` is outside this model; a shape without axes is taken to hold 0 elements.
- Shapes are sequences of natural numbers. A negative extent, and the error for it, cannot arise.
- `Caffe.Product`: uses unbounded integers. The source's 64-bit `long` can overflow for huge shapes; the model does not capture that.
- `SoftmaxWithLoss.MemoryOtherOf`: uses unbounded integers. The source's 64-bit `long` arithmetic can wrap around; the model does not capture that.
- `UUID.randomUUID()` is a randomness source. It becomes the `freshTop` parameter. A precondition says the name is none of the inputs' names and none of the declared tops.
- The protocol-buffer builder (`newBuilder`, `clearTop`, `addTop`, `build`) is generated code. It becomes the record update `param.(tops := [freshTop])`.
- The source fails with an index exception in three cases: in `ReLULayer` when there are fewer top names than inputs; in `SoftmaxWithLossLayer` when no top is declared; and when a second top is declared but there is no input. The constructors' requires exclude these cases; the model does not represent the exception.
- Input arrays are sequences of non-null blobs. Null entries are not modelled.
- The layer type string of `SoftmaxWithLossLayer` is outside this model: `SoftmaxWithLossLayer.java` does not define one.
- The GUI and plugin shell, file loading and tensor execution are I/O with no logic to model here.

## Notes on the source

- The output count of `ReLULayer` is the number of inputs, not the number of declared top names. Extra top names are ignored. The model follows the code.
- The constructor gives the sub-layer exactly one top, and the stand-in creates one output per top. Under that assumption the second term of `memoryOther` is always 0. `SoftmaxWithLossLayer.constructor` states this: the extra memory is the sub-layer's figure plus four bytes per element of its single output. The general formula, with the two-output case, is kept in `MemoryOther` and `MemoryOtherOf`.
- `memoryOther` counts the sub-layer's outputs and not the loss blob. For a loss layer over a 1x2x32x32 score whose softmax output has the score's shape and no workspace, it is exactly 4·2048 bytes (`Scenarios.LossOverScore`).
