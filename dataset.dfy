/** `CreateDataset`, the inpainting dataset: for each index it assembles a
    ground-truth image, a mask and a feature image. Image decoding and the
    torchvision transforms stay symbolic: a tensor is named by the pipeline
    and the picture it came from. Each call of `random.randint(a, b)` is an
    explicit draw `r` with `a <= r <= b`. */
module DataLoader {
  import opened Outcomes
  import opened Config
  import opened Transforms
  import opened Noise
  import opened Arithmetic

  /** Width and height of the pretraining noise canvas. */
  const NoiseSide: nat := 256

  /** The rotation range, in degrees, of the external-mask pipeline. */
  const MaskRotation: int := 10

  /** Width and height of an image, as PIL's `Image.size` reports them. */
  datatype Size = Size(w: int, h: int)

  /** An image before the transform pipeline: a file, or a canvas built in memory. */
  datatype Picture = File(path: string) | Canvas(pixels: array2<Pixel>)

  /** A tensor, named by how it was produced. */
  datatype Tensor =
    | Transformed(pipeline: seq<TransformOp>, source: Picture)  // `transforms.Compose(pipeline)(source)`
    | CenterMask(of: Tensor)                                    // `task.center_mask(of)`
    | RandomRegularMask(of: Tensor)                             // `task.random_regular_mask(of)`
    | RandomIrregularMask(of: Tensor)                           // `task.random_irregular_mask(of)`
    | ZeroIndicator(of: Tensor)                                 // `(of == 0).float()`

  /** The spatial size (height, width) of a tensor. `imageSize` gives a file's
      PIL size; a canvas is indexed `[x, y]`, so its width is `Length0`. The
      mask generators of `task` return a mask of their input's height and
      width, and `(t == 0).float()` keeps the shape. */
  function Dims(t: Tensor, imageSize: string -> Size): (int, int)
  {
    match t
    case Transformed(ops, File(p)) => PipelineDims(ops, (imageSize(p).h, imageSize(p).w))
    case Transformed(ops, Canvas(px)) => PipelineDims(ops, (px.Length1, px.Length0))
    case CenterMask(of) => Dims(of, imageSize)
    case RandomRegularMask(of) => Dims(of, imageSize)
    case RandomIrregularMask(of) => Dims(of, imageSize)
    case ZeroIndicator(of) => Dims(of, imageSize)
  }

  /** Any picture run through `get_transform(opt)` comes out at `fineSize`
      when the options fix the size. */
  lemma TransformedDims(opt: Options, src: Picture, imageSize: string -> Size)
    requires FixesSize(opt)
    ensures Dims(Transformed(TransformList(opt), src), imageSize) == opt.fineSize
  {
    match src
    case File(p) => PipelineOutputDims(opt, (imageSize(p).h, imageSize(p).w));
    case Canvas(px) => PipelineOutputDims(opt, (px.Length1, px.Length0));
  }

  /** The dictionary `__getitem__` returns; `mask` is `None` for an unknown mask code. */
  datatype Sample = Sample(img: Tensor, imgPath: string, mask: Option<Tensor>,
                           imgFeature: Tensor, imgFeaturePath: string)

  /** What `make_dataset` returns: the paths found and their count. */
  datatype FileSet = FileSet(paths: seq<string>, size: int)

  /** The draws one `__getitem__` call may take from the random generator. */
  datatype Draws = Draws(maskType: int, maskIndex: int, feature: int, noise: seq<int>)

  /** The mask strategies behind the integer codes of `opt.mask_type`. */
  datatype MaskStrategy = Center | RandomRegular | RandomIrregular | ExternalFile

  function CodeOf(s: MaskStrategy): int
  {
    match s
    case Center => 0
    case RandomRegular => 1
    case RandomIrregular => 2
    case ExternalFile => 3
  }

  /** The strategy a code selects; any code other than 0..3 selects none. */
  function StrategyOf(code: int): Option<MaskStrategy>
  {
    if code == 0 then Some(Center)
    else if code == 1 then Some(RandomRegular)
    else if code == 2 then Some(RandomIrregular)
    else if code == 3 then Some(ExternalFile)
    else None
  }

  /** Codes and strategies are in one-to-one correspondence, and exactly the
      codes 0..3 name a strategy. */
  lemma StrategyCodes(code: int, s: MaskStrategy)
    ensures StrategyOf(CodeOf(s)) == Some(s)
    ensures 0 <= CodeOf(s) <= 3
    ensures StrategyOf(code).Some? <==> 0 <= code <= 3
    ensures StrategyOf(code).Some? ==> CodeOf(StrategyOf(code).value) == code
  {
  }

  /** The side of the square crop of an external mask: the smaller of its
      width and height. */
  function SquareSize(s: Size): (size: int)
    ensures size <= s.w && size <= s.h
    ensures size == s.w || size == s.h
  {
    var size := s.w;
    if size > s.h then s.h else size
  }

  /** The pipeline an external mask of square side `size` goes through. */
  function MaskTransformList(size: int, fineSize: (int, int)): seq<TransformOp>
  {
    [RandomHorizontalFlip, RandomRotation(MaskRotation), CenterCrop(size, size),
     Resize(fineSize.0, fineSize.1), ToTensor]
  }

  /** `(t == 0).float()` on the values of a tensor, read in any fixed order. */
  function Binarize(values: seq<real>): (r: seq<real>)
    ensures |r| == |values|
    ensures forall i :: 0 <= i < |r| ==> (r[i] == 1.0 <==> values[i] == 0.0)
    ensures forall i :: 0 <= i < |r| ==> r[i] == 0.0 || r[i] == 1.0
  {
    seq(|values|, i requires 0 <= i < |values| => if values[i] == 0.0 then 1.0 else 0.0)
  }

  class CreateDataset {
    const opt: Options
    const imgs: FileSet
    const imgFeatures: FileSet
    /** `None` when `opt.mask_file` is "none": `__init__` then never sets
        `mask_paths` or `mask_size`. */
    const masks: Option<FileSet>
    const transform: seq<TransformOp>

    ghost predicate Valid()
    {
      && imgs.size == |imgs.paths|
      && imgFeatures.size == |imgFeatures.paths|
      && (masks.Some? <==> opt.maskFile != NoMaskFile)
      && (masks.Some? ==> masks.value.size == |masks.value.paths|)
      && transform == TransformList(opt)
    }

    /** `__init__`; `scan` stands for the directory scan of `make_dataset`. */
    constructor (opt: Options, scan: string -> seq<string>)
      ensures Valid()
      ensures this.opt == opt
      ensures imgs.paths == scan(opt.imgFile) && imgFeatures.paths == scan(opt.imgFeatureFile)
      ensures masks.Some? ==> masks.value.paths == scan(opt.maskFile)
    {
      this.opt := opt;
      var imgPaths := scan(opt.imgFile);
      imgs := FileSet(imgPaths, |imgPaths|);
      var featurePaths := scan(opt.imgFeatureFile);
      imgFeatures := FileSet(featurePaths, |featurePaths|);
      if opt.maskFile != NoMaskFile {
        var maskPaths := scan(opt.maskFile);
        masks := Some(FileSet(maskPaths, |maskPaths|));
      } else {
        masks := None;
      }
      var t := GetTransform(opt);
      transform := t;
    }

    /** `__len__`: the number of ground-truth images, whatever the feature and mask sets hold. */
    function Length(): (n: int)
      requires Valid()
      ensures n == |imgs.paths|
    {
      imgs.size
    }

    /** The ground-truth image an index selects: `index % img_size`. */
    function ImgIndex(index: int): (r: Result<int>)
      requires Valid()
      ensures r.Ok? <==> |imgs.paths| > 0
      ensures r.Err? ==> r.error == ZeroDivision
      ensures r.Ok? ==> 0 <= r.value < |imgs.paths| && (index - r.value) % |imgs.paths| == 0
    {
      if imgs.size == 0 then Err(ZeroDivision)
      else
        var n := imgs.size;
        DivModUnique(index - index % n, n, index / n, 0);
        Ok(index % n)
    }

    /** Indices one set-length apart select the same image. */
    lemma ImgIndexPeriodic(index: int)
      requires Valid()
      ensures ImgIndex(index + |imgs.paths|) == ImgIndex(index)
    {
      var n := |imgs.paths|;
      if n > 0 {
        var q := index / n;
        assert index + n == (q + 1) * n + index % n by {
          assert (q + 1) * n == q * n + n;
        }
        DivModUnique(index + n, n, q + 1, index % n);
      }
    }

    /** Any `img_size` consecutive indices, from any start, select every image. */
    lemma EpochCoversEveryImage(start: int, t: int)
      requires Valid() && 0 <= t < |imgs.paths|
      ensures exists i :: start <= i < start + |imgs.paths| && ImgIndex(i) == Ok(t)
    {
      var n := |imgs.paths|;
      var i := start + (t - start) % n;
      var q := (t - start) / n;
      assert i == (-q) * n + t by {
        assert t - start == q * n + (t - start) % n;
        assert (-q) * n == -(q * n);
      }
      DivModUnique(i, n, -q, t);
      assert ImgIndex(i) == Ok(t);
    }

    /** ... and no image twice. */
    lemma EpochSelectsNoImageTwice(start: int, i: int, j: int)
      requires Valid()
      requires start <= i < start + |imgs.paths| && start <= j < start + |imgs.paths|
      requires ImgIndex(i) == ImgIndex(j)
      ensures i == j
    {
      var n := |imgs.paths|;
      assert i % n == j % n;
      var qi, qj := i / n, j / n;
      assert i == qi * n + i % n && j == qj * n + j % n;
      assert i - j == (qi - qj) * n by {
        assert (qi - qj) * n == qi * n - qj * n;
      }
      SmallMultipleIsZero(qi - qj, n);
    }

    /** `load_img`: the selected path, and the shared pipeline applied to that file. */
    function LoadImg(index: int): (r: Result<(Tensor, string)>)
      requires Valid()
      ensures r.Err? <==> |imgs.paths| == 0
      ensures r.Err? ==> r.error == ZeroDivision
      ensures r.Ok? ==> r.value.1 in imgs.paths && r.value.0 == Transformed(TransformList(opt), File(r.value.1))
      ensures r.Ok? && 0 <= index < |imgs.paths| ==> r.value.1 == imgs.paths[index]
      ensures r.Ok? ==> ImgIndex(index).Ok? && r.value.1 == imgs.paths[ImgIndex(index).value]
    {
      match ImgIndex(index)
      case Err(e) => Err(e)
      case Ok(k) =>
        assert 0 <= index < imgs.size ==> k == index by {
          if 0 <= index < imgs.size {
            DivModUnique(index, imgs.size, 0, index);
          }
        }
        Ok((Transformed(transform, File(imgs.paths[k])), imgs.paths[k]))
    }

    /** `random.randint(0, img_feature_size - 1)` can return `draw`. */
    predicate FeatureDrawOk(draw: int)
    {
      imgFeatures.size > 0 ==> 0 <= draw <= imgFeatures.size - 1
    }

    /** The feature path outside pretraining: a uniformly drawn member of the feature set. */
    function FeaturePath(draw: int): (r: Result<string>)
      requires Valid() && FeatureDrawOk(draw)
      ensures r.Err? <==> |imgFeatures.paths| == 0
      ensures r.Err? ==> r.error == EmptyRange
      ensures r.Ok? ==> 0 <= draw < |imgFeatures.paths| && r.value == imgFeatures.paths[draw]
    {
      if imgFeatures.size == 0 then Err(EmptyRange) else Ok(imgFeatures.paths[draw])
    }

    /** Every feature image can be drawn. */
    lemma EveryFeatureCanBeDrawn(p: string)
      requires Valid() && p in imgFeatures.paths
      ensures exists draw :: FeatureDrawOk(draw) && FeaturePath(draw) == Ok(p)
    {
      var draw :| 0 <= draw < |imgFeatures.paths| && imgFeatures.paths[draw] == p;
      assert FeaturePath(draw) == Ok(p);
    }

    /** The mask-type draw is one `randint(0, 2)` (pretraining) or
        `randint(0, len(opt.mask_type) - 1)` can return. */
    predicate MaskTypeDrawOk(draw: int)
    {
      if opt.pretrain then 0 <= draw <= 2
      else |opt.maskType| > 0 ==> 0 <= draw <= |opt.maskType| - 1
    }

    /** The mask-type code for this call: 0, 1 or 2 in pretraining, otherwise an
        element of `opt.mask_type`; an empty `mask_type` makes `randint` fail. */
    function SelectMaskType(draw: int): (r: Result<int>)
      requires MaskTypeDrawOk(draw)
      ensures opt.pretrain ==> r.Ok? && 0 <= r.value <= 2
      ensures !opt.pretrain ==> (r.Err? <==> opt.maskType == [])
      ensures r.Err? ==> r.error == EmptyRange
      ensures !opt.pretrain && r.Ok? ==> r.value in opt.maskType
      ensures opt.pretrain ==> r == Ok(draw)
      ensures !opt.pretrain && r.Ok? ==> r.value == opt.maskType[draw]
    {
      if opt.pretrain then Ok(draw)
      else if |opt.maskType| == 0 then Err(EmptyRange)
      else Ok(opt.maskType[draw])
    }

    /** The codes that some draw selects are exactly {0, 1, 2} in pretraining
        (never the external masks) and exactly the configured codes otherwise. */
    lemma MaskTypeChoices(code: int)
      ensures (exists draw :: MaskTypeDrawOk(draw) && SelectMaskType(draw) == Ok(code))
          <==> (if opt.pretrain then 0 <= code <= 2 else code in opt.maskType)
    {
      if opt.pretrain {
        if 0 <= code <= 2 {
          assert SelectMaskType(code) == Ok(code);
        }
      } else if code in opt.maskType {
        var draw :| 0 <= draw < |opt.maskType| && opt.maskType[draw] == code;
        assert SelectMaskType(draw) == Ok(code);
      }
    }

    /** The external-mask index draw is one `randint(0, mask_size - 1)` can
        return (it is taken only when training). */
    predicate MaskIndexDrawOk(draw: int)
    {
      opt.isTrain && masks.Some? && masks.value.size > 0 ==> 0 <= draw <= masks.value.size - 1
    }

    /** The external mask file: drawn at random when training, the file at
        `index` itself (a Python subscript, no wraparound) when evaluating. */
    function SelectMaskPath(index: int, draw: int): (r: Result<string>)
      requires Valid() && MaskIndexDrawOk(draw)
      ensures masks.None? ==> r == Err(MissingAttribute)
      ensures r.Ok? ==> masks.Some? && r.value in masks.value.paths
      ensures opt.isTrain && masks.Some? ==>
        && (r.Err? <==> masks.value.paths == [])
        && (r.Err? ==> r.error == EmptyRange)
        && (r.Ok? ==> r.value == masks.value.paths[draw])
      ensures !opt.isTrain && masks.Some? && 0 <= index < |masks.value.paths| ==>
        r == Ok(masks.value.paths[index])
      ensures !opt.isTrain && masks.Some? && index >= |masks.value.paths| ==>
        r == Err(IndexOutOfRange)
      ensures !opt.isTrain && masks.Some? && -|masks.value.paths| <= index < 0 ==>
        r == Ok(masks.value.paths[|masks.value.paths| + index])
      ensures !opt.isTrain && masks.Some? && index < -|masks.value.paths| ==>
        r == Err(IndexOutOfRange)
    {
      if masks.None? then Err(MissingAttribute)
      else if opt.isTrain then
        if masks.value.size == 0 then Err(EmptyRange) else Ok(masks.value.paths[draw])
      else
        Subscript(masks.value.paths, index)
    }

    /** The binarised external mask read from `path`, whose image has size `dims`. */
    function ExternalMask(path: string, dims: Size): Tensor
    {
      ZeroIndicator(Transformed(MaskTransformList(SquareSize(dims), opt.fineSize), File(path)))
    }

    /** `load_mask`: select a code, then dispatch on it. `imageSize` stands for
        opening a mask file and reading its size. */
    function LoadMask(img: Tensor, index: int, typeDraw: int, indexDraw: int,
                      imageSize: string -> Size): (r: Result<Option<Tensor>>)
      requires Valid() && MaskTypeDrawOk(typeDraw) && MaskIndexDrawOk(indexDraw)
      ensures SelectMaskType(typeDraw).Err? ==> r == Err(EmptyRange)
      ensures opt.pretrain ==>
        (r.Ok? && r.value.Some? &&
         r.value.value in {CenterMask(img), RandomRegularMask(img), RandomIrregularMask(img)})
      ensures r == Ok(None) <==> SelectMaskType(typeDraw).Ok? && !(0 <= SelectMaskType(typeDraw).value <= 3)
      ensures r.Ok? && r.value.Some? && r.value.value.ZeroIndicator? ==>
        && !opt.pretrain && SelectMaskType(typeDraw) == Ok(3) && masks.Some?
        && exists p :: p in masks.value.paths && r.value.value == ExternalMask(p, imageSize(p))
    {
      match SelectMaskType(typeDraw)
      case Err(e) => Err(e)
      case Ok(code) =>
        match StrategyOf(code)
        case None => Ok(None)
        case Some(Center) => Ok(Some(CenterMask(img)))
        case Some(RandomRegular) => Ok(Some(RandomRegularMask(img)))
        case Some(RandomIrregular) => Ok(Some(RandomIrregularMask(img)))
        case Some(ExternalFile) =>
          match SelectMaskPath(index, indexDraw)
          case Err(e) => Err(e)
          case Ok(p) => Ok(Some(ExternalMask(p, imageSize(p))))
    }

    /** Each code 0..3 selects its own strategy. */
    lemma MaskDispatch(img: Tensor, index: int, typeDraw: int, indexDraw: int, imageSize: string -> Size)
      requires Valid() && MaskTypeDrawOk(typeDraw) && MaskIndexDrawOk(indexDraw)
      requires SelectMaskType(typeDraw).Ok?
      ensures var code, r := SelectMaskType(typeDraw).value, LoadMask(img, index, typeDraw, indexDraw, imageSize);
        && (code == 0 ==> r == Ok(Some(CenterMask(img))))
        && (code == 1 ==> r == Ok(Some(RandomRegularMask(img))))
        && (code == 2 ==> r == Ok(Some(RandomIrregularMask(img))))
        && (code == 3 ==> r == match SelectMaskPath(index, indexDraw)
                               case Err(e) => Err(e)
                               case Ok(p) => Ok(Some(ExternalMask(p, imageSize(p)))))
    {
    }

    /** In evaluation the mask does not depend on any random draw of the
        index, so evaluation runs see the same external mask file each time. */
    lemma EvalMaskIgnoresIndexDraw(img: Tensor, index: int, typeDraw: int, d1: int, d2: int,
                                   imageSize: string -> Size)
      requires Valid() && !opt.isTrain && MaskTypeDrawOk(typeDraw)
      ensures LoadMask(img, index, typeDraw, d1, imageSize) == LoadMask(img, index, typeDraw, d2, imageSize)
    {
    }

    /** The external-mask pipeline crops to the smaller side of the mask image,
        resizes to `fineSize` and ends with the tensor conversion. */
    lemma ExternalMaskPipeline(path: string, dims: Size)
      ensures var t := ExternalMask(path, dims);
        && t.ZeroIndicator? && t.of.Transformed? && t.of.source == File(path)
        && var ops := t.of.pipeline;
           |ops| == 5 && ops[0] == RandomHorizontalFlip && ops[1] == RandomRotation(MaskRotation)
           && ops[2] == CenterCrop(SquareSize(dims), SquareSize(dims))
           && SquareSize(dims) == (if dims.w <= dims.h then dims.w else dims.h)
           && ops[3] == Resize(opt.fineSize.0, opt.fineSize.1) && ops[4] == ToTensor
    {
    }

    /** A centre, regular or irregular mask has the image's height and width;
        an external mask is always `fineSize`; and when the options fix the
        size, the image, and so every mask, is `fineSize`. */
    lemma SampleDims(index: int, typeDraw: int, indexDraw: int, imageSize: string -> Size)
      requires Valid() && MaskTypeDrawOk(typeDraw) && MaskIndexDrawOk(indexDraw)
      requires LoadImg(index).Ok?
      ensures var img := LoadImg(index).value.0;
        var m := LoadMask(img, index, typeDraw, indexDraw, imageSize);
        && (m.Ok? && m.value.Some? && !m.value.value.ZeroIndicator? ==>
              Dims(m.value.value, imageSize) == Dims(img, imageSize))
        && (m.Ok? && m.value.Some? && m.value.value.ZeroIndicator? ==>
              Dims(m.value.value, imageSize) == opt.fineSize)
        && (FixesSize(opt) ==> Dims(img, imageSize) == opt.fineSize)
        && (FixesSize(opt) && m.Ok? && m.value.Some? ==> Dims(m.value.value, imageSize) == opt.fineSize)
    {
      var img := LoadImg(index).value.0;
      var m := LoadMask(img, index, typeDraw, indexDraw, imageSize);
      if FixesSize(opt) {
        TransformedDims(opt, File(LoadImg(index).value.1), imageSize);
      }
      if m.Ok? && m.value.Some? && m.value.value.ZeroIndicator? {
        var p :| p in masks.value.paths && m.value.value == ExternalMask(p, imageSize(p));
        ExternalMaskDims(p, imageSize);
      }
    }

    /** The external-mask pipeline ends at `fineSize`, whatever the mask file's size. */
    lemma ExternalMaskDims(path: string, imageSize: string -> Size)
      ensures Dims(ExternalMask(path, imageSize(path)), imageSize) == opt.fineSize
    {
      var size := SquareSize(imageSize(path));
      var ops := MaskTransformList(size, opt.fineSize);
      var hw := (imageSize(path).h, imageSize(path).w);
      var pre := ops[..2];
      var post := ops[2..];
      assert ops == pre + post;
      assert KeepsSize(pre);
      PipelineDimsAppend(pre, post, hw);
      KeepsSizeDims(pre, hw);
      var fine := Resize(opt.fineSize.0, opt.fineSize.1);
      assert post[1..] == [fine, ToTensor];
      assert post[1..][1..] == [ToTensor];
      calc {
        PipelineDims(post, hw);
        PipelineDims([fine, ToTensor], (size, size));
        PipelineDims([ToTensor], opt.fineSize);
      }
    }

    /** Every draw a `__getitem__` call may take is one the generator can return. */
    predicate DrawsOk(draws: Draws)
    {
      && MaskTypeDrawOk(draws.maskType)
      && MaskIndexDrawOk(draws.maskIndex)
      && FeatureDrawOk(draws.feature)
      && (opt.pretrain ==> DrawsFor(draws.noise, NoiseSide, NoiseSide))
    }

    /** `load_img_feature`: in pretraining a fresh 256 by 256 noise canvas and
        an empty path; otherwise a drawn feature file. */
    method LoadImgFeature(index: int, draw: int, noise: seq<int>) returns (r: Result<(Tensor, string)>)
      requires Valid() && FeatureDrawOk(draw)
      requires opt.pretrain ==> DrawsFor(noise, NoiseSide, NoiseSide)
      ensures opt.pretrain ==>
        && r.Ok? && r.value.1 == ""
        && r.value.0.Transformed? && r.value.0.pipeline == TransformList(opt) && r.value.0.source.Canvas?
        && var canvas := r.value.0.source.pixels;
           && fresh(canvas) && canvas.Length0 == NoiseSide && canvas.Length1 == NoiseSide
           && forall x, y :: 0 <= x < NoiseSide && 0 <= y < NoiseSide ==>
                canvas[x, y] == DrawnPixel(noise, NoiseSide, NoiseSide, x, y) && InRange(canvas[x, y])
      ensures !opt.pretrain ==> match FeaturePath(draw)
        case Err(e) => r == Err(e)
        case Ok(p) => r == Ok((Transformed(TransformList(opt), File(p)), p))
    {
      if opt.pretrain {
        var canvas := new Pixel[NoiseSide, NoiseSide]((x, y) => (0, 0, 0));
        FillNoise(canvas, noise);
        return Ok((Transformed(transform, Canvas(canvas)), ""));
      }
      var path := FeaturePath(draw);
      match path {
        case Err(e) => r := Err(e);
        case Ok(p) => r := Ok((Transformed(transform, File(p)), p));
      }
    }

    /** `__getitem__`: image, then mask, then feature image; the first failure is the result. */
    method GetItem(index: int, draws: Draws, imageSize: string -> Size) returns (r: Result<Sample>)
      requires Valid() && DrawsOk(draws)
      ensures LoadImg(index).Err? ==> r == Err(LoadImg(index).error)
      ensures LoadImg(index).Ok? && LoadMask(LoadImg(index).value.0, index, draws.maskType, draws.maskIndex, imageSize).Err? ==>
        r == Err(LoadMask(LoadImg(index).value.0, index, draws.maskType, draws.maskIndex, imageSize).error)
      ensures (&& LoadImg(index).Ok?
               && LoadMask(LoadImg(index).value.0, index, draws.maskType, draws.maskIndex, imageSize).Ok?
               && !opt.pretrain && FeaturePath(draws.feature).Err?) ==>
        r == Err(FeaturePath(draws.feature).error)
      ensures r.Ok? <==>
        && LoadImg(index).Ok?
        && LoadMask(LoadImg(index).value.0, index, draws.maskType, draws.maskIndex, imageSize).Ok?
        && (opt.pretrain || FeaturePath(draws.feature).Ok?)
      ensures r.Ok? ==>
        && r.value.img == LoadImg(index).value.0 && r.value.imgPath == LoadImg(index).value.1
        && r.value.mask == LoadMask(r.value.img, index, draws.maskType, draws.maskIndex, imageSize).value
      ensures r.Ok? && opt.pretrain ==>
        && r.value.imgFeaturePath == ""
        && r.value.imgFeature.Transformed? && r.value.imgFeature.pipeline == TransformList(opt)
        && r.value.imgFeature.source.Canvas?
        && var canvas := r.value.imgFeature.source.pixels;
           && canvas.Length0 == NoiseSide && canvas.Length1 == NoiseSide
           && forall x, y :: 0 <= x < NoiseSide && 0 <= y < NoiseSide ==>
                canvas[x, y] == DrawnPixel(draws.noise, NoiseSide, NoiseSide, x, y) && InRange(canvas[x, y])
      ensures r.Ok? && !opt.pretrain ==>
        && r.value.imgFeaturePath == FeaturePath(draws.feature).value
        && r.value.imgFeature == Transformed(TransformList(opt), File(r.value.imgFeaturePath))
    {
      var img := LoadImg(index);
      if img.Err? {
        return Err(img.error);
      }
      var mask := LoadMask(img.value.0, index, draws.maskType, draws.maskIndex, imageSize);
      if mask.Err? {
        return Err(mask.error);
      }
      var feature := LoadImgFeature(index, draws.feature, draws.noise);
      if feature.Err? {
        return Err(feature.error);
      }
      r := Ok(Sample(img.value.0, img.value.1, mask.value, feature.value.0, feature.value.1));
    }
  }
}
