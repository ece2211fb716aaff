/** The command-line options the dataset reads (`opt`). Parsing them is not
    part of this model; only the fields the dataset reads appear. */
module Config {

  datatype Options = Options(
    imgFile: string,          // pattern handed to `make_dataset` for the ground-truth images
    imgFeatureFile: string,   // pattern for the feature (reference) images
    maskFile: string,         // pattern for external masks, or the sentinel "none"
    pretrain: bool,
    isTrain: bool,
    maskType: seq<int>,       // mask-type codes allowed outside pretraining
    loadSize: (int, int),     // `[opt.loadSize[0], opt.loadSize[1]]`
    fineSize: (int, int),     // `[opt.fineSize[0], opt.fineSize[1]]`
    resizeOrCrop: string,     // "resize_and_crop", "crop" or anything else
    noAugment: bool,
    noFlip: bool,
    noRotation: bool
  )

  /** The sentinel value of `mask_file` that disables the external mask set. */
  const NoMaskFile: string := "none"
}
