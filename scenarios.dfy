/**
 * Small networks built from the two layer kinds, with what their
 * contracts let a caller conclude.
 */
module Scenarios {
  import opened Caffe
  import opened ReLU
  import opened SoftmaxWithLoss

  /**
   * One ReLU layer over two inputs, in place on the first and writing a new
   * blob for the second: the alias decision is taken per position.
   */
  method MixedReLU() returns (relu: ReLULayer, data: CaffeBlob, score: CaffeBlob)
    ensures relu.out.Length == 2
    ensures relu.out[0] == data
    ensures relu.out[1] != null && relu.out[1] != score && relu.out[1] != data
    ensures relu.out[1].name == "score_relu" && relu.out[1].shape == score.shape
  {
    data := new CaffeBlob("data", [1, 3, 32, 32], "input");
    score := new CaffeBlob("score", [1, 2, 32, 32], "conv");
    relu := new ReLULayer("relu1", [data, score], ["data", "score_relu"]);
  }

  /**
   * A loss layer "loss1" over "score" (shape 1x2x32x32) and a label blob,
   * with tops "loss1" and "prob", whose softmax output has the shape of
   * "score" and which needs no workspace of its own.
   */
  method LossOverScore() returns (loss: SoftmaxWithLossLayer, score: CaffeBlob, labels: CaffeBlob)
    ensures loss.out.Length == 2
    ensures loss.out[0] != null && loss.out[0].Count() == 1
    ensures loss.out[1] != null && loss.out[1].shape == [1, 2, 32, 32]
    ensures score.onGPU && labels.onGPU
    ensures |loss.softmaxLayer.outputs| == 1
    ensures loss.MemoryOther() == 4 * (1 * 2 * 32 * 32)
  {
    score := new CaffeBlob("score", [1, 2, 32, 32], "conv");
    labels := new CaffeBlob("label", [1, 1, 32, 32], "input");
    loss := new SoftmaxWithLossLayer(LayerParameter("loss1", ["loss1", "prob"]), [score, labels],
                                     "hidden-softmax-top", score.shape, 0);
    assert loss.inputs[1] == labels;
    assert ShapeCount([1, 2, 32, 32]) == 2048;
  }
}
