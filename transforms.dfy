/** The image transform pipeline built by `get_transform`: a configuration
    becomes an ordered list of torchvision operations. The operations are
    symbolic; what they do to pixels is not modelled. */
module Transforms {
  import opened Config

  datatype TransformOp =
    | Resize(s0: int, s1: int)
    | RandomCrop(s0: int, s1: int)
    | CenterCrop(s0: int, s1: int)
    | ColorJitter(brightness: real, contrast: real, saturation: real, hue: real)
    | RandomHorizontalFlip
    | RandomRotation(degrees: int)
    | ToTensor

  /** The jitter the training pipeline uses: all four magnitudes are zero. */
  const InertJitter: TransformOp := ColorJitter(0.0, 0.0, 0.0, 0.0)

  /** The rotation range, in degrees, of the training pipeline. */
  const TrainRotation: int := 3

  /** The geometric pre-operations of a training pipeline. */
  function CropOps(opt: Options): seq<TransformOp>
  {
    if opt.resizeOrCrop == "resize_and_crop" then
      [Resize(opt.loadSize.0, opt.loadSize.1), RandomCrop(opt.fineSize.0, opt.fineSize.1)]
    else if opt.resizeOrCrop == "crop" then
      [RandomCrop(opt.fineSize.0, opt.fineSize.1)]
    else
      []
  }

  /** `[op]` when the option enables it, `[]` otherwise. */
  function When(enabled: bool, op: TransformOp): seq<TransformOp>
  {
    if enabled then [op] else []
  }

  /** The pipeline `get_transform(opt)` composes, in application order. */
  function TransformList(opt: Options): seq<TransformOp>
  {
    if opt.isTrain then
      CropOps(opt)
      + When(!opt.noAugment, InertJitter)
      + When(!opt.noFlip, RandomHorizontalFlip)
      + When(!opt.noRotation, RandomRotation(TrainRotation))
      + [ToTensor]
    else
      [Resize(opt.fineSize.0, opt.fineSize.1), ToTensor]
  }

  /** `get_transform`: appends to a list that starts empty, one option at a time. */
  method GetTransform(opt: Options) returns (transformList: seq<TransformOp>)
    ensures transformList == TransformList(opt)
  {
    transformList := [];
    var osize := (opt.loadSize.0, opt.loadSize.1);
    var fsize := (opt.fineSize.0, opt.fineSize.1);
    if opt.isTrain {
      if opt.resizeOrCrop == "resize_and_crop" {
        transformList := transformList + [Resize(osize.0, osize.1)];
        transformList := transformList + [RandomCrop(fsize.0, fsize.1)];
      } else if opt.resizeOrCrop == "crop" {
        transformList := transformList + [RandomCrop(fsize.0, fsize.1)];
      }
      if !opt.noAugment {
        transformList := transformList + [InertJitter];
      }
      if !opt.noFlip {
        transformList := transformList + [RandomHorizontalFlip];
      }
      if !opt.noRotation {
        transformList := transformList + [RandomRotation(TrainRotation)];
      }
    } else {
      transformList := transformList + [Resize(fsize.0, fsize.1)];
    }
    transformList := transformList + [ToTensor];
  }

  /** The position an operation kind takes in a pipeline built by `get_transform`. */
  function Stage(op: TransformOp): nat
  {
    match op
    case Resize(_, _) => 0
    case RandomCrop(_, _) => 1
    case CenterCrop(_, _) => 1
    case ColorJitter(_, _, _, _) => 2
    case RandomHorizontalFlip => 3
    case RandomRotation(_) => 4
    case ToTensor => 5
  }

  /** Every operation comes strictly after the ones of earlier stages; so no
      kind of operation appears twice. */
  ghost predicate Staged(ops: seq<TransformOp>)
  {
    forall i, j :: 0 <= i < j < |ops| ==> Stage(ops[i]) < Stage(ops[j])
  }

  /** The pipeline always ends with the tensor conversion, and converts only once. */
  lemma EndsWithToTensor(opt: Options)
    ensures |TransformList(opt)| > 0
    ensures TransformList(opt)[|TransformList(opt)| - 1] == ToTensor
    ensures forall i :: 0 <= i < |TransformList(opt)| - 1 ==> TransformList(opt)[i] != ToTensor
  {
  }

  /** Evaluation mode gives exactly a resize to `fineSize` and the tensor conversion. */
  lemma EvalPipeline(opt: Options)
    requires !opt.isTrain
    ensures TransformList(opt) == [Resize(opt.fineSize.0, opt.fineSize.1), ToTensor]
  {
  }

  /** The geometric pre-operations of training mode: `resize_and_crop` puts
      `Resize(loadSize)` immediately before `RandomCrop(fineSize)`, `crop`
      gives the crop alone, any other value neither. */
  lemma TrainCropRules(opt: Options)
    requires opt.isTrain
    ensures var ops := TransformList(opt);
      && (opt.resizeOrCrop == "resize_and_crop" ==>
            ops[0] == Resize(opt.loadSize.0, opt.loadSize.1) && ops[1] == RandomCrop(opt.fineSize.0, opt.fineSize.1))
      && (opt.resizeOrCrop == "crop" ==>
            ops[0] == RandomCrop(opt.fineSize.0, opt.fineSize.1) && forall i :: 0 <= i < |ops| ==> !ops[i].Resize?)
      && (opt.resizeOrCrop != "resize_and_crop" && opt.resizeOrCrop != "crop" ==>
            forall i :: 0 <= i < |ops| ==> !ops[i].Resize? && !ops[i].RandomCrop?)
  {
  }

  /** Jitter, flip and rotation are each present exactly when training with
      the corresponding `no_*` option off, and only with the source's parameters. */
  lemma AugmentationPresence(opt: Options)
    ensures var ops := TransformList(opt);
      && ((exists i :: 0 <= i < |ops| && ops[i].ColorJitter?) <==> opt.isTrain && !opt.noAugment)
      && ((exists i :: 0 <= i < |ops| && ops[i].RandomHorizontalFlip?) <==> opt.isTrain && !opt.noFlip)
      && ((exists i :: 0 <= i < |ops| && ops[i].RandomRotation?) <==> opt.isTrain && !opt.noRotation)
      && (forall i :: 0 <= i < |ops| && ops[i].ColorJitter? ==> ops[i] == InertJitter)
      && (forall i :: 0 <= i < |ops| && ops[i].RandomRotation? ==> ops[i] == RandomRotation(TrainRotation))
  {
    var ops := TransformList(opt);
    if opt.isTrain {
      var pre := CropOps(opt);
      var j := When(!opt.noAugment, InertJitter);
      var f := When(!opt.noFlip, RandomHorizontalFlip);
      var r := When(!opt.noRotation, RandomRotation(TrainRotation));
      assert ops == pre + j + f + r + [ToTensor];
      if !opt.noAugment { assert ops[|pre|].ColorJitter?; }
      if !opt.noFlip { assert ops[|pre| + |j|].RandomHorizontalFlip?; }
      if !opt.noRotation { assert ops[|pre| + |j| + |f|].RandomRotation?; }
    }
  }

  /** The spatial size (height, width) an operation gives an image of size
      `hw`. torchvision reads a two-element size as (height, width); jitter,
      flip, rotation (which does not expand the image) and the tensor
      conversion keep the size. */
  function OpDims(op: TransformOp, hw: (int, int)): (int, int)
  {
    match op
    case Resize(s0, s1) => (s0, s1)
    case RandomCrop(s0, s1) => (s0, s1)
    case CenterCrop(s0, s1) => (s0, s1)
    case _ => hw
  }

  /** The spatial size after applying `ops` in order. */
  function PipelineDims(ops: seq<TransformOp>, hw: (int, int)): (int, int)
  {
    if |ops| == 0 then hw else PipelineDims(ops[1..], OpDims(ops[0], hw))
  }

  /** No operation of `ops` resizes or crops. */
  ghost predicate KeepsSize(ops: seq<TransformOp>)
  {
    forall i :: 0 <= i < |ops| ==> !ops[i].Resize? && !ops[i].RandomCrop? && !ops[i].CenterCrop?
  }

  /** Running two pipelines one after the other is running their concatenation. */
  lemma {:induction false} PipelineDimsAppend(a: seq<TransformOp>, b: seq<TransformOp>, hw: (int, int))
    ensures PipelineDims(a + b, hw) == PipelineDims(b, PipelineDims(a, hw))
  {
    if |a| == 0 {
      assert a + b == b;
    } else {
      assert (a + b)[1..] == a[1..] + b;
      PipelineDimsAppend(a[1..], b, OpDims(a[0], hw));
    }
  }

  /** A pipeline without resizes or crops leaves the size alone. */
  lemma {:induction false} KeepsSizeDims(ops: seq<TransformOp>, hw: (int, int))
    requires KeepsSize(ops)
    ensures PipelineDims(ops, hw) == hw
  {
    if |ops| > 0 {
      assert KeepsSize(ops[1..]);
      KeepsSizeDims(ops[1..], hw);
    }
  }

  /** The options under which `get_transform` fixes the output size:
      evaluation, or training with `resize_and_crop` or `crop`. */
  predicate FixesSize(opt: Options)
  {
    !opt.isTrain || opt.resizeOrCrop == "resize_and_crop" || opt.resizeOrCrop == "crop"
  }

  /** The size after the geometric pre-operations of a training pipeline. */
  lemma CropOpsDims(opt: Options, hw: (int, int))
    ensures PipelineDims(CropOps(opt), hw) ==
      if opt.resizeOrCrop == "resize_and_crop" || opt.resizeOrCrop == "crop" then opt.fineSize else hw
  {
    var crop := RandomCrop(opt.fineSize.0, opt.fineSize.1);
    if opt.resizeOrCrop == "resize_and_crop" {
      var pre := CropOps(opt);
      assert pre[1..] == [crop];
      assert PipelineDims([crop], OpDims(pre[0], hw)) == PipelineDims([], opt.fineSize);
    } else if opt.resizeOrCrop == "crop" {
      assert PipelineDims([crop], hw) == PipelineDims([], opt.fineSize);
    }
  }

  /** The pipeline's output is `fineSize` when the options fix the size, and
      the input's own size otherwise. */
  lemma PipelineOutputDims(opt: Options, hw: (int, int))
    ensures FixesSize(opt) ==> PipelineDims(TransformList(opt), hw) == opt.fineSize
    ensures !FixesSize(opt) ==> PipelineDims(TransformList(opt), hw) == hw
  {
    var ops := TransformList(opt);
    if opt.isTrain {
      var pre := CropOps(opt);
      var tail := When(!opt.noAugment, InertJitter)
        + When(!opt.noFlip, RandomHorizontalFlip)
        + When(!opt.noRotation, RandomRotation(TrainRotation))
        + [ToTensor];
      assert ops == pre + tail;
      assert KeepsSize(tail);
      PipelineDimsAppend(pre, tail, hw);
      KeepsSizeDims(tail, PipelineDims(pre, hw));
      CropOpsDims(opt, hw);
    } else {
      assert PipelineDims(ops, hw) == PipelineDims([ToTensor], opt.fineSize);
    }
  }

  /** The operations appear in the order crop < jitter < flip < rotation < tensor. */
  lemma TransformListStaged(opt: Options)
    ensures Staged(TransformList(opt))
  {
  }
}
