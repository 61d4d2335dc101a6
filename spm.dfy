/** The `SPM` class of spm.py: each renderer opens a fresh job file, writes
    the batch text piece by piece, and returns the names of the outputs the
    engine is expected to produce. Running the engine is not modelled; the
    pieces written to each job file are stated by the functions of
    `Documents` (the file's text being their concatenation), and
    what the output names mean by the lemmas of `Naming`. A renderer that
    Python would abort with an `IndexError` before opening its file returns
    no job (`null`). */
module Spm {
  import opened Paths
  import opened Text
  import opened Naming
  import opened Documents
  import opened Writers
  import Setup

  class Spm {
    /** Location of the SPM/CAT12 installation, written into CAT12 jobs. */
    const spmPath: string
    /** Location of the MATLAB runtime. */
    const mcrPath: string
    /** The command each job file is run with. */
    const spmRun: string

    /** `__init__` once both paths have been found to exist, building the
        run command as evidently intended (see `Setup.Init`). */
    constructor (spmPath: string, mcrPath: string)
      ensures this.spmPath == spmPath && this.mcrPath == mcrPath
      ensures spmRun == spmPath + "/run_spm12.sh " + mcrPath + " batch"
    {
      this.spmPath := spmPath;
      this.mcrPath := mcrPath;
      this.spmRun := Setup.RunCommand(spmPath, mcrPath);
    }

    /** `coregister`: the job lands beside the source image; the output is
        the source with `r` before its basename. */
    method Coregister(reference: string, source: string) returns (job: JobFile, output: string)
      ensures fresh(job)
      ensures job.path == Join(Head(source), "coregister.m")
      ensures job.writes == CoregisterWrites(reference, source)
      ensures output == ReslicedPath(source)
      ensures Split(output) == (Head(source), "r" + Basename(source))
    {
      var components := Split(source);
      job := new JobFile(Join(components.0, "coregister.m"));
      var d := CoregEstwrite;
      var w0 := d + "ref = {'" + reference + ",1'};\n";
      job.Write(w0);
      var w1 := d + "source = {'" + source + ",1'};\n";
      job.Write(w1);
      var w2 := d + "other = {''};\n";
      job.Write(w2);
      var w3 := d + "eoptions.cost_fun = 'nmi';\n";
      job.Write(w3);
      var w4 := d + "eoptions.sep = [4 2];\n";
      job.Write(w4);
      var w5 := d + "eoptions.tol = [0.02 0.02 0.02 0.001 0.001 0.001 0.01 0.01 0.01 0.001 0.001 0.001];\n";
      job.Write(w5);
      var w6 := d + "eoptions.fwhm = [7 7]\n;";
      job.Write(w6);
      var w7 := d + "roptions.interp = 4;\n";
      job.Write(w7);
      var w8 := d + "roptions.wrap = [0 0 0];\n";
      job.Write(w8);
      var w9 := d + "roptions.mask = 0;\n";
      job.Write(w9);
      var w10 := d + "roptions.prefix = 'r';\n";
      job.Write(w10);
      Appended11([], w0, w1, w2, w3, w4, w5, w6, w7, w8, w9, w10);
      output := ResliceName(source);
    }

    /** `normalize_pet`: old-style normalization of `imageToNorm` onto the
        template, writing the resampled images (the image itself when none
        are given). The output is the first resampled image with `w` before
        its basename; the matrix is the image's name minus its last four
        characters, plus `_sn.mat`. */
    method NormalizePet(imageToNorm: string, template: string, imagesToWrite: seq<string>,
                        bb: BoundingBox, voxSize: string, wrapping: bool, interpolation: int)
      returns (job: JobFile, output: string, matrix: string)
      ensures fresh(job)
      ensures job.path == Join(Head(imageToNorm), "normalize.m")
      ensures job.writes == NormalizePetWrites(imageToNorm, template, ResampleList(imageToNorm, imagesToWrite),
                                               bb, voxSize, wrapping, interpolation)
      ensures output == WarpedPath(ResampleList(imageToNorm, imagesToWrite)[0])
      ensures var first := ResampleList(imageToNorm, imagesToWrite)[0];
        Split(output) == (Head(first), "w" + Basename(first))
      ensures matrix == TransformMatrixPath(imageToNorm)
    {
      var source := Split(imageToNorm);
      job := new JobFile(Join(source.0, "normalize.m"));
      var d := OldNormEstwrite;
      var resample := imagesToWrite;
      if resample == [] {
        resample := [imageToNorm];
      }
      var subject := d + "subj.source = {'" + imageToNorm + ",1'};\n" + d + "subj.wtsrc = '';" + "\n" + d + "subj.resample = {";
      job.Write(subject);
      WriteList(job, resample, Frame, "};" + "\n");
      var options := PetEstimationOptions(template, bb, voxSize, interpolation);
      job.Write(options);
      WriteWrap(job, d, wrapping);
      var prefix := d + "roptions.prefix ='w';\n";
      job.Write(prefix);
      ListThenThree([], subject, ListWrites(resample, Frame, "};" + "\n"), options, WrapDirective(d, wrapping), prefix);
      output := WarpName(resample[0]);
      matrix := DropLast(imageToNorm, 4) + "_sn.mat";
    }

    /** `normalize_mri`: unified segmentation-normalization. One warped
        output per resampled image, in order; the deformation field is
        named after `imageToNorm` and lands beside the first resampled image. */
    method NormalizeMri(imageToNorm: string, template: string, imagesToWrite: seq<string>,
                        bb: BoundingBox, voxSize: string, interpolation: int)
      returns (job: JobFile, deformed: seq<string>, field: string)
      ensures fresh(job)
      ensures job.path == Join(Head(imageToNorm), "normalize.m")
      ensures job.writes == NormalizeMriWrites(imageToNorm, template, ResampleList(imageToNorm, imagesToWrite),
                                               bb, voxSize, interpolation)
      ensures var resample := ResampleList(imageToNorm, imagesToWrite);
        |deformed| == |resample| &&
        (forall i :: 0 <= i < |resample| ==> deformed[i] == WarpedPath(resample[i])) &&
        forall i :: 0 <= i < |resample| ==>
          Split(deformed[i]) == (Head(resample[i]), "w" + Basename(resample[i]))
      ensures field == DeformationFieldPath(imageToNorm, ResampleList(imageToNorm, imagesToWrite)[0])
    {
      var source := Split(imageToNorm);
      job := new JobFile(Join(source.0, "normalize.m"));
      var d := NormaliseEstwrite;
      var resample := imagesToWrite;
      if resample == [] {
        resample := [imageToNorm];
      }
      var subject := d + "subj.vol = {'" + imageToNorm + ",1'};" + "\n" + d + "subj.resample = {" + "\n";
      job.Write(subject);
      WriteList(job, resample, Frame, "};" + "\n");
      var options :=
        d + "eoptions.biasreg = 0.01;\n" +
        d + "eoptions.biasfwhm = 60;\n" +
        d + "eoptions.tpm = {'" + template + "'};\n" +
        d + "eoptions.affreg = 'mni';\n" +
        d + "eoptions.reg = [0 0.001 0.5 0.05 0.2];\n" +
        d + "eoptions.fwhm = 0;\n" +
        d + "eoptions.samp = 3;\n" +
        d + "woptions.bb = [" +
        BoundingBoxText(bb) + "\n" +
        d + "woptions.vox = " + voxSize + ";" + "\n" +
        d + "woptions.interp = " + Decimal.IntToString(interpolation) + ";" + "\n";
      job.Write(options);
      ListThenOne([], subject, ListWrites(resample, Frame, "};" + "\n"), options);
      deformed := WarpedPaths(resample);
      var first := Split(resample[0]);
      field := Join(first.0, "y_" + DropLast(Basename(imageToNorm), 3) + "nii");
    }

    /** `new_deformations`: pull the images through a deformation field.
        The job lands beside the first image; the outputs are named with
        `w` whatever `prefix` the job itself asks for. Without images
        Python fails on `images_to_deform[0]` before writing anything. */
    method NewDeformations(defMatrix: string, images: seq<string>, interpolation: int, prefix: string)
      returns (job: JobFile?, deformed: seq<string>)
      ensures job == null <==> images == []
      ensures job != null ==> fresh(job)
      ensures job != null ==> job.path == Join(Head(images[0]), "deformations.m")
      ensures job != null ==> job.writes == NewDeformationsWrites(defMatrix, images, interpolation, prefix)
      ensures |deformed| == |images|
      ensures forall i :: 0 <= i < |images| ==> deformed[i] == WarpedPath(images[i])
      ensures forall i :: 0 <= i < |images| ==> Split(deformed[i]) == (Head(images[i]), "w" + Basename(images[i]))
    {
      if images == [] {
        return null, [];
      }
      var source := Split(images[0]);
      var file := new JobFile(Join(source.0, "deformations.m"));
      var head := DefsComp + "def = {'" + defMatrix + "'};\n" + DefsOut + "pull.fnames = {" + "\n";
      file.Write(head);
      WriteList(file, images, "", "};\n");
      var options :=
        DefsOut + "pull.savedir.savesrc = 1;\n" +
        DefsOut + "pull.interp =" + Decimal.IntToString(interpolation) + ";\n" +
        DefsOut + "pull.mask = 0;\n" +
        DefsOut + "pull.fwhm = [0 0 0];\n" +
        DefsOut + "pull.prefix ='" + prefix + "';\n";
      file.Write(options);
      ListThenOne([], head, ListWrites(images, "", "};\n"), options);
      job := file;
      deformed := WarpedPaths(images);
    }

    /** `old_deformations`: pull the images through the inverse of a saved
        old-normalization, in the space of `baseImage`, into the directory of
        the first image; the outputs are named with `w`. */
    method OldDeformations(defMatrix: string, baseImage: string, images: seq<string>, interpolation: int)
      returns (job: JobFile?, deformed: seq<string>)
      ensures job == null <==> images == []
      ensures job != null ==> fresh(job)
      ensures job != null ==> job.path == Join(Head(images[0]), "deformations.m")
      ensures job != null ==> job.writes == OldDeformationsWrites(defMatrix, baseImage, images, Head(images[0]), interpolation)
      ensures |deformed| == |images|
      ensures forall i :: 0 <= i < |images| ==> deformed[i] == WarpedPath(images[i])
      ensures forall i :: 0 <= i < |images| ==> Split(deformed[i]) == (Head(images[i]), "w" + Basename(images[i]))
    {
      if images == [] {
        return null, [];
      }
      var source := Split(images[0]);
      var file := new JobFile(Join(source.0, "deformations.m"));
      var head :=
        DefsCompInv + "comp{1}.sn2def.matname = {'" + defMatrix + "'};" + "\n" +
        DefsCompInv + "comp{1}.sn2def.vox = [NaN NaN NaN];" + "\n" +
        DefsCompInv + "comp{1}.sn2def.bb = [NaN NaN NaN" + "\n" +
        "NaN NaN NaN];" + "\n" +
        DefsCompInv + "space = {'" + baseImage + "'};" + "\n" +
        DefsOut + "pull.fnames = {" + "\n";
      file.Write(head);
      WriteList(file, images, "", "};" + "\n");
      var options :=
        DefsOut + "pull.savedir.saveusr = {'" + source.0 + "/'};" + "\n" +
        DefsOut + "pull.interp = " + Decimal.IntToString(interpolation) + ";" + "\n" +
        DefsOut + "pull.mask = 1;\n" +
        DefsOut + "pull.fwhm = [0 0 0];\n";
      file.Write(options);
      ListThenOne([], head, ListWrites(images, "", "};" + "\n"), options);
      job := file;
      deformed := WarpedPaths(images);
    }

    /** `apply_normalization_to_atlas`: the job lands beside the atlas; the
        output is the atlas with `w` before its basename. */
    method ApplyNormalizationToAtlas(defMatrix: string, normMri: string, atlas: string)
      returns (job: JobFile, output: string)
      ensures fresh(job)
      ensures job.path == Join(Head(atlas), "deformations.m")
      ensures job.writes == AtlasWrites(defMatrix, normMri, atlas)
      ensures output == WarpedPath(atlas)
      ensures Split(output) == (Head(atlas), "w" + Basename(atlas))
    {
      var source := Split(atlas);
      job := new JobFile(Join(source.0, "deformations.m"));
      var d := Defs;
      var w0 := d + "comp{1}.inv.comp{1}.def = {'" + defMatrix + "'};\n";
      job.Write(w0);
      var w1 := d + "comp{1}.inv.space = {'" + normMri + "'};\n";
      job.Write(w1);
      var w2 := d + "out{1}.push.fnames = {'" + atlas + "'};\n";
      job.Write(w2);
      var w3 := d + "out{1}.push.weight = {''};\n";
      job.Write(w3);
      var w4 := d + "out{1}.push.savedir.savesrc = 1;\n";
      job.Write(w4);
      var w5 := d + "out{1}.push.fov.file = {'" + normMri + "'};\n";
      job.Write(w5);
      var w6 := d + "out{1}.push.preserve = 2;\n";
      job.Write(w6);
      var w7 := d + "out{1}.push.fwhm = [0 0 0];\n";
      job.Write(w7);
      var w8 := d + "out{1}.push.prefix = 'w';\n";
      job.Write(w8);
      Appended9([], w0, w1, w2, w3, w4, w5, w6, w7, w8);
      output := WarpName(atlas);
    }

    /** `normalize_multiple_pets`: one batch normalizing every image, each
        as its own subject, written to `normalize.m` in `dirProc`. */
    method NormalizeMultiplePets(dirProc: string, images: seq<string>, template: string, o: OldNormOptions)
      returns (job: JobFile)
      ensures fresh(job)
      ensures job.path == Join(dirProc, "normalize.m")
      ensures job.writes == NormalizeMultiplePetsWrites(images, template, o)
    {
      var d := OldNormEstwrite;
      job := new JobFile(Join(dirProc, "normalize.m"));
      WriteSubjects(job, d, images);
      var options := SharedOldNormOptions(template, o);
      job.Write(options);
      WriteWrap(job, d, o.wrapping);
      var prefix := d + "roptions.prefix ='" + o.prefix + "';" + "\n";
      job.Write(prefix);
      ThenThree([], SubjectWrites(d, images), options, WrapDirective(d, o.wrapping), prefix);
    }

    /** `smooth_multiple_imgs`: the kernel is the first three widths, each
        as Python renders it. Python fails before writing anything when
        there is no image or fewer than three widths. */
    method SmoothMultipleImages(dirProc: string, images: seq<string>, smoothing: seq<string>)
      returns (job: JobFile?)
      ensures job == null <==> images == [] || |smoothing| < 3
      ensures job != null ==> fresh(job)
      ensures job != null ==> job.path == Join(dirProc, "smooth.m")
      ensures job != null ==> job.writes == SmoothWrites(images, "[" + smoothing[0] + " " + smoothing[1] + " " + smoothing[2] + "]")
    {
      if images == [] || |smoothing| < 3 {
        return null;
      }
      var d := SmoothJob;
      var kernel := "[" + smoothing[0] + " " + smoothing[1] + " " + smoothing[2] + "]";
      var file := new JobFile(Join(dirProc, "smooth.m"));
      var data := d + "data = {\n";
      file.Write(data);
      WriteList(file, images, Frame, "};" + "\n");
      var fwhm := d + "fwhm =" + kernel + ";" + "\n";
      file.Write(fwhm);
      var dtype := d + "dtype = 0;" + "\n";
      file.Write(dtype);
      var im := d + "im = 0;" + "\n";
      file.Write(im);
      var prefix := d + "prefix ='" + "s" + "';" + "\n";
      file.Write(prefix);
      ListThenFour([], data, ListWrites(images, Frame, "};" + "\n"), fwhm, dtype, im, prefix);
      job := file;
    }

    /** `create_mfile_model`: the two-sample t-test design, written to `mfileName`. */
    method CreateModel(mfileName: string, saveDir: string, g: GroupDesign, mask: string, f: ModelFlags)
      returns (job: JobFile)
      ensures fresh(job)
      ensures job.path == mfileName
      ensures job.writes == ModelWrites(saveDir, g, mask, f)
    {
      var d := FactorialDesign;
      job := new JobFile(mfileName);
      var opening := d + "dir = {'" + saveDir + "/'};" + "\n" + "%%" + "\n" + d + "des.t2.scans1 = {" + "\n";
      job.Write(opening);
      WriteList(job, g.group1, Frame, "};" + "\n");
      var scans2 := d + "des.t2.scans2 = {" + "\n";
      job.Write(scans2);
      WriteList(job, g.group2, Frame, "};" + "\n");
      WriteAgeCovariate(job, g.ages1, g.ages2, f);
      WriteTivCovariate(job, g.tiv1, g.tiv2);
      WriteMasking(job, mask, f);
      Regrouped7([], [opening], ListWrites(g.group1, Frame, "};" + "\n"), [scans2], ListWrites(g.group2, Frame, "};" + "\n"),
        AgeCovariateWrites(g.ages1, g.ages2, f), TivCovariateWrites(g.tiv1, g.tiv2), MaskingWrites(mask, f));
    }

    /** `create_mfile_estimate_model`: classical estimation of `spmMat`. */
    method CreateEstimateModel(mfileName: string, spmMat: string) returns (job: JobFile)
      ensures fresh(job)
      ensures job.path == mfileName
      ensures job.writes == EstimateWrites(Estimate1, spmMat)
    {
      job := new JobFile(mfileName);
      WriteEstimate(job, Estimate1, spmMat);
    }

    /** `create_mfile_contrast`: one t-contrast on `spmMat`. */
    method CreateContrast(mfileName: string, spmMat: string, name: string, weights: string) returns (job: JobFile)
      ensures fresh(job)
      ensures job.path == mfileName
      ensures job.writes == ContrastWrites(Contrast1, spmMat, name, weights)
    {
      job := new JobFile(mfileName);
      WriteContrast(job, Contrast1, spmMat, name, weights);
    }

    /** `run_2sample_ttest`: the model, estimation and contrast jobs, all in
        `saveDir`, the last two on `saveDir/SPM.mat`. */
    method RunTwoSampleTTest(saveDir: string, g: GroupDesign, mask: string, f: ModelFlags,
                             contrastName: string, contrast: string)
      returns (model: JobFile, estimate: JobFile, results: JobFile)
      ensures fresh(model) && fresh(estimate) && fresh(results)
      ensures model.path == Join(saveDir, "model.m") && model.writes == ModelWrites(saveDir, g, mask, f)
      ensures estimate.path == Join(saveDir, "estimate.m")
        && estimate.writes == EstimateWrites(Estimate1, Join(saveDir, "SPM.mat"))
      ensures results.path == Join(saveDir, "results.m")
        && results.writes == ContrastWrites(Contrast1, Join(saveDir, "SPM.mat"), contrastName, contrast)
    {
      model := CreateModel(Join(saveDir, "model.m"), saveDir, g, mask, f);
      var spmMat := Join(saveDir, "SPM.mat");
      estimate := CreateEstimateModel(Join(saveDir, "estimate.m"), spmMat);
      results := CreateContrast(Join(saveDir, "results.m"), spmMat, contrastName, contrast);
    }

    /** `cat12seg_imgs`: CAT12 segmentation of every image, written to
        `cat12seg.m` in the working directory, whose name is returned. */
    method Cat12Segment(images: seq<string>, tpm: string, volumes: string, o: Cat12Options)
      returns (job: JobFile, name: string)
      ensures fresh(job)
      ensures job.path == "cat12seg.m" && name == job.path
      ensures job.writes == Cat12SegWrites(images, tpm, volumes, o)
    {
      name := "cat12seg.m";
      job := new JobFile(name);
      var data := CatEstwrite + "data = {\n";
      job.Write(data);
      WriteList(job, images, Frame, "};" + "\n");
      WriteCat12Settings(job, tpm, volumes, o);
      Regrouped3([], [data], ListWrites(images, Frame, "};" + "\n"), Cat12SettingsWrites(tpm, volumes, o));
    }

    /** `run_cat12_new_model`: the CAT12 design, its estimation and the
        `Atrophy` contrast in one job in `saveDir`, on `saveDir/SPM.mat`. */
    method RunCat12NewModel(saveDir: string, g: GroupDesign, mask: string) returns (job: JobFile)
      ensures fresh(job)
      ensures job.path == Join(saveDir, "cat_12_vbm.m")
      ensures job.writes == Cat12ModelWrites(spmPath, saveDir, g, mask, Join(saveDir, "SPM.mat"))
    {
      job := new JobFile(Join(saveDir, "cat_12_vbm.m"));
      WriteCat12Scans(job, spmPath, saveDir, g.group1, g.group2);
      WriteCat12Covariates(job, g.ages1, g.ages2, g.tiv1, g.tiv2, mask);
      var spmMat := Join(saveDir, "SPM.mat");
      WriteEstimate(job, Estimate2, spmMat);
      WriteContrast(job, Contrast3, spmMat, "Atrophy", "[1 -1 0 0]");
      Regrouped4([], Cat12ScansWrites(spmPath, saveDir, g.group1, g.group2),
        Cat12CovariatesWrites(g.ages1, g.ages2, g.tiv1, g.tiv2, mask),
        EstimateWrites(Estimate2, spmMat), ContrastWrites(Contrast3, spmMat, "Atrophy", "[1 -1 0 0]"));
    }
  }
}
