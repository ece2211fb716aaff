# Inpainting sample assembly, modelled in Dafny

This project models the decision logic of `CreateDataset`, the PyTorch
dataset that feeds an image-inpainting model. For each index it returns a
ground-truth image, a binary occlusion mask and a feature (reference) image,
with their paths. The model covers:

- how the ground-truth image is chosen (`index % img_size`);
- how the feature image is chosen (a random file, or a synthetic noise canvas
  when pretraining);
- how one of the four mask strategies is chosen and dispatched: centre,
  random regular, random irregular, external file;
- how `get_transform` turns the options into an ordered transform pipeline.

Files and modules:

- `outcomes.dfy` (`Outcomes`): the Python exceptions the logic can raise, as
  a `Result`, plus `Option` and Python's list subscript.
- `config.dfy` (`Config`): the options the dataset reads.
- `transforms.dfy` (`Transforms`): `get_transform`. It has two forms. One is
  the method `GetTransform`, which appends step by step as the source does.
  The other is the function `TransformList`, which the order and presence
  lemmas are about.
- `noise.dfy` (`Noise`): the nested loop that fills the pretraining canvas.
  It fills an `array2` from a stream of `randint(0, 255)` draws.
- `arithmetic.dfy` (`Arithmetic`): facts about multiplication and Euclidean
  division. The index and draw-position proofs use them.
- `dataset.dfy` (`DataLoader`): the class `CreateDataset`. Its fields are
  `const`: `__init__` sets them once and nothing changes them afterwards.

Modelling conventions:

- Each `random.randint(a, b)` call is an explicit draw `r`. A precondition
  bounds it by `a <= r <= b`, and it applies only when `a <= b`. When
  `b < a`, Python raises `ValueError`, and the model returns `Err(EmptyRange)`.
- Tensors are symbolic terms. `Transformed(pipeline, picture)` stands for
  `transforms.Compose(pipeline)(picture)`, and `ZeroIndicator(t)` stands for
  `(t == 0).float()`. `Binarize` gives the pointwise meaning of the latter.
- The directory scan of `make_dataset` is a function parameter `scan`.
  Reading a mask file's size is a function parameter `imageSize`.

Behaviours worth noting:

- An empty image set is not rejected at construction. `load_img` then fails
  with a division by zero (`ZeroDivision`).
- If mask type 3 is configured with `mask_file == "none"`, nothing fails at
  construction either. `load_mask` fails when type 3 is drawn, because
  `self.mask_paths` / `self.mask_size` were never set (`MissingAttribute`).
- Binarisation marks exactly the values equal to 0. It does not test for the
  image's minimum value.
- In evaluation, the external mask is `mask_paths[index]`, an ordinary
  Python subscript. An index at or above the mask count raises `IndexError`
  (`IndexOutOfRange`). A negative index counts from the end.

## Model

| member | source | states |
|---|---|---|
| Transforms.GetTransform | dataloader/data_loader.py:106-128 | the list built by the successive appends is the pipeline `TransformList(opt)` |
| Transforms.EndsWithToTensor | dataloader/data_loader.py:126 | every pipeline is non-empty, ends with `ToTensor`, and has no other `ToTensor` |
| Transforms.EvalPipeline | dataloader/data_loader.py:123-126 | in evaluation mode the pipeline is exactly `[Resize(fineSize), ToTensor]` |
| Transforms.TrainCropRules | dataloader/data_loader.py:111-116 | in training, `resize_and_crop` puts `Resize(loadSize)` immediately before `RandomCrop(fineSize)`; `crop` starts with `RandomCrop(fineSize)` and has no resize; any other value has neither |
| Transforms.AugmentationPresence | dataloader/data_loader.py:117-122 | jitter, flip and rotation are each present iff training with `no_augment`, `no_flip`, `no_rotation` respectively false; jitter has zero magnitudes and rotation is 3 degrees |
| Transforms.PipelineOutputDims | dataloader/data_loader.py:109-126 | the pipeline outputs (height, width) `fineSize` in evaluation and in training with `resize_and_crop` or `crop`; with any other `resize_or_crop` value it keeps the input's size |
| DataLoader.TransformedDims | dataloader/data_loader.py:38 | any picture passed through `self.transform` comes out at `fineSize` when the options fix the size |
| DataLoader.CreateDataset.ExternalMaskDims | dataloader/data_loader.py:85-94 | an external mask is `fineSize`, whatever the size of the mask file |
| DataLoader.CreateDataset.SampleDims | dataloader/data_loader.py:21-23 | a centre, regular or irregular mask has the image's height and width; an external mask is `fineSize`; when the options fix the size, image and mask are both `fineSize` |
| Transforms.TransformListStaged | dataloader/data_loader.py:111-126 | stages strictly increase along the pipeline: resize < crop < jitter < flip < rotation < tensor, so no kind appears twice |
| Noise.FillNoise | dataloader/data_loader.py:46-48 | after the nested loop every pixel `(x, y)` of the canvas holds the three draws at positions `3(xH+y)`, `+1`, `+2` of the stream, and each channel is in [0, 255] |
| Noise.DrawnPixelInRange | dataloader/data_loader.py:48 | a pixel built from `randint(0, 255)` draws has all three channels in [0, 255] |
| Noise.DrawPosition | dataloader/data_loader.py:46-48 | every draw of a stream of length `3WH` is consumed by some channel of some pixel inside the canvas |
| Noise.DrawIndexInjective | dataloader/data_loader.py:46-48 | two different channel/pixel positions never consume the same draw |
| Noise.CanvasDeterminesDraws | dataloader/data_loader.py:46-48 | two streams that paint the same canvas are equal, so each pixel takes its own draws |
| DataLoader.StrategyCodes | dataloader/data_loader.py:66-79 | codes 0..3 and the four mask strategies correspond one to one; every other code selects no strategy |
| DataLoader.SquareSize | dataloader/data_loader.py:85-87 | the square side is the smaller of the mask image's width and height |
| DataLoader.Binarize | dataloader/data_loader.py:94 | the result has the input's length, is 1.0 exactly where the input is 0 and 0.0 elsewhere, so it lies in {0.0, 1.0} |
| DataLoader.CreateDataset.constructor | dataloader/data_loader.py:10-17 | the three file sets come from scanning the configured locations, with sizes equal to their lengths; the mask set exists iff `mask_file` is not "none"; the pipeline is `get_transform(opt)` |
| DataLoader.CreateDataset.Length | dataloader/data_loader.py:28-29 | `__len__` is the number of ground-truth images, independent of the feature and mask sets |
| DataLoader.CreateDataset.ImgIndex | dataloader/data_loader.py:36 | with a non-empty image set, the selected position is in bounds and congruent to the index modulo the set size; with an empty set, division by zero |
| DataLoader.CreateDataset.ImgIndexPeriodic | dataloader/data_loader.py:36 | indices one set length apart select the same image |
| DataLoader.CreateDataset.EpochCoversEveryImage | dataloader/data_loader.py:36 | any `img_size` consecutive indices, from any start, select every image |
| DataLoader.CreateDataset.EpochSelectsNoImageTwice | dataloader/data_loader.py:36 | within `img_size` consecutive indices no image is selected twice |
| DataLoader.CreateDataset.LoadImg | dataloader/data_loader.py:34-40 | the path is `img_paths[index % img_size]`, a member of the image set and the one at `index` when `index` is in range; the tensor is the shared pipeline applied to that file, and an empty set fails |
| DataLoader.CreateDataset.FeaturePath | dataloader/data_loader.py:52 | the feature path is the set's entry at the draw, which is in bounds; an empty feature set raises the empty-range error |
| DataLoader.CreateDataset.EveryFeatureCanBeDrawn | dataloader/data_loader.py:52 | every feature file is chosen by some admissible draw |
| DataLoader.CreateDataset.SelectMaskType | dataloader/data_loader.py:60-64 | in pretraining the code is the `randint(0, 2)` draw itself, so in {0, 1, 2}; otherwise it is `opt.mask_type` at the draw, so an element of `opt.mask_type`; and an empty `mask_type` is the empty-range error |
| DataLoader.CreateDataset.MaskTypeChoices | dataloader/data_loader.py:60-64 | a code is selectable by some admissible draw iff it is in {0, 1, 2} (pretraining) or in `opt.mask_type` (otherwise) |
| DataLoader.CreateDataset.SelectMaskPath | dataloader/data_loader.py:80-84 | training takes the mask set's entry at the draw, and fails on an empty set; evaluation takes entry `index` when `0 <= index < mask_size` and raises `IndexError` when `index >= mask_size`; a negative index counts from the end, and one below `-mask_size` raises `IndexError`; without a mask set the attribute is missing |
| DataLoader.CreateDataset.LoadMask | dataloader/data_loader.py:58-96 | pretraining always yields a centre, regular or irregular mask of the image; the result is `None` iff the drawn code is outside 0..3; an external mask comes only outside pretraining, from code 3, from a file of the mask set; a failed type draw propagates |
| DataLoader.CreateDataset.MaskDispatch | dataloader/data_loader.py:66-96 | codes 0, 1, 2 give the centre, regular and irregular masks of the image; code 3 gives the binarised external mask of the selected file, or that selection's error |
| DataLoader.CreateDataset.EvalMaskIgnoresIndexDraw | dataloader/data_loader.py:80-83 | in evaluation the mask does not depend on the mask-index draw |
| DataLoader.CreateDataset.ExternalMaskPipeline | dataloader/data_loader.py:85-94 | an external mask is the zero indicator of the file after a five-step pipeline: horizontal flip, rotation within 10 degrees, a crop to the `min(w, h)` square, `Resize(fineSize)` and `ToTensor` |
| DataLoader.CreateDataset.LoadImgFeature | dataloader/data_loader.py:42-56 | pretraining returns the empty path and the pipeline applied to a fresh 256×256 canvas; every canvas pixel comes from the draws and is in range; otherwise it returns the drawn feature file under the pipeline, or the empty-range error |
| DataLoader.CreateDataset.GetItem | dataloader/data_loader.py:19-26 | the sample holds the results of `load_img`, `load_mask` and `load_img_feature`; it fails iff one of them fails, and reports the first failure in that order |

## Left out

- Image decoding is not modelled: `Image.open`, `convert('RGB')`, `close()` and the process-wide `ImageFile.LOAD_TRUNCATED_IMAGES` switch. This is file I/O and library state. A mask file's size is the parameter `imageSize`.
- What torchvision does to pixels is not modelled: resize interpolation, crops, flips, rotation angles, colour jitter, and `ToTensor` scaling. Operations are symbolic constructors.
- `task.center_mask`, `task.random_regular_mask` and `task.random_irregular_mask` are not modelled. They live in a module that is not part of this model. Each appears as a constructor applied to the image tensor. Their one property, a mask with the same height and width as the input, is stated by `Dims`.
- `make_dataset` is not modelled: it scans a directory. It is the parameter `scan`, and it is taken to return the paths together with their own count.
- `dataloader()` is not modelled: batching, shuffling and the worker pool are concurrency and library code. The same goes for per-worker random seeding.
- The random generator is not modelled. Its results are explicit draws bounded by preconditions. Statistical claims, such as a noise canvas not being constant, are not stated.
- `name()` is not modelled: it returns a fixed string and has no logic.
- Option values are assumed well-formed. `loadSize` and `fineSize` are pairs, so the `IndexError` of a shorter option list is not modelled.
- Sizes are tracked symbolically as (height, width) pairs. Whether an image is large enough for `RandomCrop(fineSize)` is not modelled; torchvision raises an error when it is not. Rotation is taken not to expand the image, which is torchvision's default.
- `Binarize` works on the tensor's values flattened into one sequence. Tensor dimensions are not tracked.
