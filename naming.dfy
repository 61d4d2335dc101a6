/** The names of the files a stage is expected to produce, derived from its
    inputs after the engine has run (spm.py computes them by convention and
    never checks that they exist). */
module Naming {
  import opened Paths

  /** Prefix the engine puts on resliced (coregistered) images. */
  const ResliceTag: string := "r"
  /** Prefix the engine puts on warped (normalized or deformed) images. */
  const WarpTag: string := "w"

  /** `if not images_to_write: images_to_write = [image_to_norm]`: an empty
      list stands for Python's `False` default. */
  function ResampleList(imageToNorm: string, imagesToWrite: seq<string>): (r: seq<string>)
    ensures |r| > 0
    ensures imagesToWrite != [] ==> r == imagesToWrite
    ensures imagesToWrite == [] ==> r == [imageToNorm]
  {
    if imagesToWrite == [] then [imageToNorm] else imagesToWrite
  }

  /** Output of `coregister`: the source image with `r` before its basename. */
  function ReslicedPath(source: string): string {
    PrefixBasename(source, ResliceTag)
  }

  /** Output of the normalizations, deformations and atlas push: `w` before the basename. */
  function WarpedPath(image: string): string {
    PrefixBasename(image, WarpTag)
  }

  /** `image_to_norm[0:-4] + "_sn.mat"`: the saved old-normalization parameters. */
  function TransformMatrixPath(imageToNorm: string): string {
    DropLast(imageToNorm, 4) + "_sn.mat"
  }

  /** `join(split(images_to_write[0])[0], "y_" + basename(image_to_norm)[0:-3] + "nii")`:
      the forward deformation field written by `normalize_mri`. */
  function DeformationFieldPath(imageToNorm: string, firstResampled: string): string {
    Join(Head(firstResampled), "y_" + DropLast(Basename(imageToNorm), 3) + "nii")
  }

  lemma ReslicedPathSplit(source: string)
    ensures Split(ReslicedPath(source)) == (Head(source), "r" + Basename(source))
  {
    assert NoSep(ResliceTag);
    PrefixBasenameSplit(source, ResliceTag);
  }

  lemma WarpedPathSplit(image: string)
    ensures Split(WarpedPath(image)) == (Head(image), "w" + Basename(image))
  {
    assert NoSep(WarpTag);
    PrefixBasenameSplit(image, WarpTag);
  }

  /** The transform matrix sits beside the image it was estimated from, its
      name being the image's basename with the last four characters (the
      extension, for `.nii`/`.img`) replaced by `_sn.mat`. */
  lemma TransformMatrixBesideImage(imageToNorm: string)
    requires |Basename(imageToNorm)| >= 4
    ensures Split(TransformMatrixPath(imageToNorm))
         == (Head(imageToNorm), DropLast(Basename(imageToNorm), 4) + "_sn.mat")
  {
    var p := imageToNorm;
    var i := BaseStart(p);
    var base := Basename(p);
    BasenameAt(p);
    var name := DropLast(base, 4) + "_sn.mat";
    NoSepDropLast(base, 4);
    NoSepAppend(DropLast(base, 4), "_sn.mat");
    DropLastInBase(p, 4);
    AppendAssociative(p[..i], DropLast(base, 4), "_sn.mat");
    SplitAppendBase(p[..i], name);
  }

  /** Dropping characters that all lie in the basename shortens only the basename. */
  lemma DropLastInBase(p: string, n: nat)
    requires n > 0 && |Basename(p)| >= n
    ensures DropLast(p, n) == p[..BaseStart(p)] + DropLast(Basename(p), n)
  {
    var i := BaseStart(p);
    BasenameAt(p);
    SliceSplit(p, i, |p| - n);
  }

  lemma SliceSplit(p: string, i: nat, j: nat)
    requires i <= j <= |p|
    ensures p[..j] == p[..i] + p[i..][..j - i]
  {
  }

  lemma NoSepDropLast(s: string, n: nat)
    requires n > 0 && NoSep(s)
    ensures NoSep(DropLast(s, n))
  {
    forall k | 0 <= k < |DropLast(s, n)| ensures DropLast(s, n)[k] != Sep {
      assert DropLast(s, n)[k] == s[k];
    }
  }

  lemma NoSepAppend(a: string, b: string)
    requires NoSep(a) && NoSep(b)
    ensures NoSep(a + b)
  {
    forall k | 0 <= k < |a + b| ensures (a + b)[k] != Sep {
      if k >= |a| { assert (a + b)[k] == b[k - |a|]; }
    }
  }

  /** The deformation field lands in the directory of the first resampled
      image, named `y_` + the normalized image's basename minus its last three
      characters + `nii`. */
  lemma DeformationFieldName(imageToNorm: string, firstResampled: string)
    ensures Split(DeformationFieldPath(imageToNorm, firstResampled))
         == (Head(firstResampled), "y_" + DropLast(Basename(imageToNorm), 3) + "nii")
  {
    var b := Basename(imageToNorm);
    NoSepDropLast(b, 3);
    NoSepAppend("y_", DropLast(b, 3));
    NoSepAppend("y_" + DropLast(b, 3), "nii");
    SplitJoin(Head(firstResampled), "y_" + DropLast(b, 3) + "nii");
  }

  /** For an image whose name ends in `nii` the field is `y_` + its basename. */
  lemma DeformationFieldOfNifti(imageToNorm: string, firstResampled: string)
    requires var b := Basename(imageToNorm); |b| >= 3 && b[|b| - 3..] == "nii"
    ensures Basename(DeformationFieldPath(imageToNorm, firstResampled)) == "y_" + Basename(imageToNorm)
  {
    var b := Basename(imageToNorm);
    DeformationFieldName(imageToNorm, firstResampled);
    SliceJoin(b, |b| - 3);
    AppendAssociative("y_", DropLast(b, 3), "nii");
  }

  /** `join(split(source)[0], 'r' + split(source)[1])`, the output name
      `coregister` returns. */
  method ResliceName(source: string) returns (output: string)
    ensures output == ReslicedPath(source)
    ensures Split(output) == (Head(source), "r" + Basename(source))
  {
    var components := Split(source);
    output := Join(components.0, ResliceTag + components.1);
    ReslicedPathSplit(source);
  }

  /** `join(split(image)[0], 'w' + split(image)[1])`, the output name of the
      normalizations, the deformations and the atlas push. */
  method WarpName(image: string) returns (output: string)
    ensures output == WarpedPath(image)
    ensures Split(output) == (Head(image), "w" + Basename(image))
  {
    var components := Split(image);
    output := Join(components.0, WarpTag + components.1);
    WarpedPathSplit(image);
  }

  /** The loop that `normalize_mri`, `new_deformations` and `old_deformations`
      each run over their inputs: one output per input, in input order, each
      the input with `w` before its basename. */
  method WarpedPaths(images: seq<string>) returns (warped: seq<string>)
    ensures |warped| == |images|
    ensures forall i :: 0 <= i < |images| ==> warped[i] == WarpedPath(images[i])
    ensures forall i :: 0 <= i < |images| ==> Split(warped[i]) == (Head(images[i]), "w" + Basename(images[i]))
  {
    warped := PulledPaths(images, WarpTag);
    WarpedOutputs(images, warped);
  }

  /** What a deformation `pull` with output prefix `prefix` writes for
      `image` into the image's own directory: `prefix` before the basename. */
  function PulledPath(image: string, prefix: string): string {
    PrefixBasename(image, prefix)
  }

  /** `new_deformations` asks for `prefix` but names its outputs with `w`:
      for any other separator-free prefix the returned name is not the
      file the job writes. */
  lemma WarpedIgnoresPrefix(image: string, prefix: string)
    requires NoSep(prefix) && prefix != WarpTag
    ensures WarpedPath(image) != PulledPath(image, prefix)
  {
    WarpedPathSplit(image);
    PrefixBasenameSplit(image, prefix);
  }

  /** The output loop with the job's own prefix: one name per input, in
      input order, each the input with `prefix` before its basename. With
      the default prefix `w` these are exactly the names `WarpedPath` gives. */
  method PulledPaths(images: seq<string>, prefix: string) returns (pulled: seq<string>)
    ensures |pulled| == |images|
    ensures forall i :: 0 <= i < |images| ==> pulled[i] == PulledPath(images[i], prefix)
    ensures NoSep(prefix) ==>
      forall i :: 0 <= i < |images| ==> Split(pulled[i]) == (Head(images[i]), prefix + Basename(images[i]))
    ensures prefix == WarpTag ==> forall i :: 0 <= i < |images| ==> pulled[i] == WarpedPath(images[i])
  {
    pulled := [];
    for j := 0 to |images|
      invariant |pulled| == j
      invariant forall i :: 0 <= i < j ==> pulled[i] == PulledPath(images[i], prefix)
    {
      var components := Split(images[j]);
      var name := Join(components.0, prefix + components.1);
      assert name == PulledPath(images[j], prefix);
      pulled := pulled + [name];
    }
    if NoSep(prefix) {
      PulledOutputs(images, prefix, pulled);
    }
  }

  /** Names built by PulledPath, read back by `split`. */
  lemma PulledOutputs(images: seq<string>, prefix: string, pulled: seq<string>)
    requires NoSep(prefix) && |pulled| == |images|
    requires forall i :: 0 <= i < |images| ==> pulled[i] == PulledPath(images[i], prefix)
    ensures forall i :: 0 <= i < |images| ==> Split(pulled[i]) == (Head(images[i]), prefix + Basename(images[i]))
  {
    forall i | 0 <= i < |images|
      ensures Split(pulled[i]) == (Head(images[i]), prefix + Basename(images[i]))
    {
      PrefixBasenameSplit(images[i], prefix);
    }
  }

  /** Names built by WarpedPath, read back by `split`. */
  lemma WarpedOutputs(images: seq<string>, warped: seq<string>)
    requires |warped| == |images|
    requires forall i :: 0 <= i < |images| ==> warped[i] == WarpedPath(images[i])
    ensures forall i :: 0 <= i < |images| ==> Split(warped[i]) == (Head(images[i]), "w" + Basename(images[i]))
  {
    forall i | 0 <= i < |images|
      ensures Split(warped[i]) == (Head(images[i]), "w" + Basename(images[i]))
    {
      WarpedPathSplit(images[i]);
    }
  }
}
