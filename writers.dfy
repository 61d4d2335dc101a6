/** The loops and write sequences the renderers of spm.py share or repeat:
    each passes to `write`, one call at a time, exactly the pieces the
    corresponding `Documents` function lists. */
module Writers {
  import opened Decimal
  import opened Text
  import opened Documents

  /** `for image in items: write("'" + image + suffix + "'" + "\n")`, then
      `write(closing)`. */
  method WriteList(job: JobFile, items: seq<string>, suffix: string, closing: string)
    modifies job
    ensures job.writes == old(job.writes) + ListWrites(items, suffix, closing)
  {
    ghost var start := job.writes;
    for j := 0 to |items|
      invariant job.writes == start + LineWrites(ListLines(items[..j], suffix))
    {
      job.Write("'" + items[j] + suffix + "'" + "\n");
      ListStep(items, suffix, j);
    }
    assert items[..|items|] == items;
    job.Write(closing);
  }

  /** `for v in values: write(str(v) + "\n")`. */
  method WriteValues(job: JobFile, values: seq<string>)
    modifies job
    ensures job.writes == old(job.writes) + LineWrites(values)
  {
    ghost var start := job.writes;
    for j := 0 to |values|
      invariant job.writes == start + LineWrites(values[..j])
    {
      job.Write(values[j] + "\n");
      ValuesStep(values, j);
    }
    assert values[..|values|] == values;
  }

  /** A covariate column: the opening, the first group's values, the
      second group's values, then the closing text. */
  method WriteColumn(job: JobFile, opening: string, first: seq<string>, second: seq<string>, closing: string)
    modifies job
    ensures job.writes == old(job.writes) + ColumnWrites(opening, first, second, closing)
  {
    job.Write(opening);
    WriteValues(job, first);
    WriteValues(job, second);
    job.Write(closing);
  }

  /** The `for i in range(len(images))` loop of `normalize_multiple_pets`:
      one write of three directives per subject. */
  method WriteSubjects(job: JobFile, prefix: string, images: seq<string>)
    modifies job
    ensures job.writes == old(job.writes) + SubjectWrites(prefix, images)
  {
    ghost var start := job.writes;
    for i := 0 to |images|
      invariant job.writes == start + SubjectWrites(prefix, images[..i])
    {
      job.Write(
        (prefix + "subj(" + IntToString(i + 1) + ").source = {'" + images[i] + ",1'};") + "\n" +
        (prefix + "subj(" + IntToString(i + 1) + ").wtsrc = '';") + "\n" +
        (prefix + "subj(" + IntToString(i + 1) + ").resample = {'" + images[i] + ",1'};") + "\n");
      SubjectsStep(prefix, images, i);
    }
    assert images[..|images|] == images;
  }

  // One iteration of each loop above: the writes after the iteration.

  lemma ListStep(items: seq<string>, suffix: string, j: nat)
    requires j < |items|
    ensures LineWrites(ListLines(items[..j + 1], suffix))
         == LineWrites(ListLines(items[..j], suffix)) + ["'" + items[j] + suffix + "'" + "\n"]
  {
    assert ListLines(items[..j + 1], suffix) == ListLines(items[..j], suffix) + ["'" + items[j] + suffix + "'"];
  }

  lemma ValuesStep(values: seq<string>, j: nat)
    requires j < |values|
    ensures LineWrites(values[..j + 1]) == LineWrites(values[..j]) + [values[j] + "\n"]
  {
    assert values[..j + 1] == values[..j] + [values[j]];
  }

  lemma SubjectsStep(prefix: string, images: seq<string>, i: nat)
    requires i < |images|
    ensures var n := IntToString(i + 1);
      SubjectWrites(prefix, images[..i + 1])
      == SubjectWrites(prefix, images[..i])
         + [(prefix + "subj(" + n + ").source = {'" + images[i] + ",1'};") + "\n" +
            (prefix + "subj(" + n + ").wtsrc = '';") + "\n" +
            (prefix + "subj(" + n + ").resample = {'" + images[i] + ",1'};") + "\n"]
  {
    assert IntToString(i + 1) == NatToString(i + 1);
    assert SubjectWrites(prefix, images[..i + 1])
        == SubjectWrites(prefix, images[..i]) + [SubjectWrite(prefix, i + 1, images[i])];
  }

  /** `if wrapping: write(... [1 1 1]) else: write(... [0 0 0])`. */
  method WriteWrap(job: JobFile, prefix: string, wrapping: bool)
    modifies job
    ensures job.writes == old(job.writes) + [WrapDirective(prefix, wrapping)]
  {
    if wrapping {
      job.Write(prefix + "roptions.wrap = [1 1 1];" + "\n");
    } else {
      job.Write(prefix + "roptions.wrap = [0 0 0];" + "\n");
    }
  }

  /** The design flags and the Age covariate of `create_mfile_model`. */
  method WriteAgeCovariate(job: JobFile, ages1: seq<string>, ages2: seq<string>, f: ModelFlags)
    modifies job
    ensures job.writes == old(job.writes) + AgeCovariateWrites(ages1, ages2, f)
  {
    var d := FactorialDesign;
    job.Write(
      d + "des.t2.dept = " + IntToString(f.dependence) + ";" + "\n" +
      d + "des.t2.variance = " + IntToString(f.variance) + ";" + "\n" +
      d + "des.t2.gmsca = " + IntToString(f.gmScaling) + ";" + "\n" +
      d + "des.t2.ancova = " + IntToString(f.ancova) + ";" + "\n");
    WriteColumn(job, d + "cov(1).c = [", ages1, ages2, "];" + "\n" + "%%" + "\n");
    job.Write(
      d + "cov(1).cname = 'Age';" + "\n" +
      d + "cov(1).iCFI = 1;" + "\n" +
      d + "cov(1).iCC = 5;" + "\n");
  }

  /** `if group1_tiv:` the TIV covariate of `create_mfile_model`. */
  method WriteTivCovariate(job: JobFile, tiv1: seq<string>, tiv2: seq<string>)
    modifies job
    ensures job.writes == old(job.writes) + TivCovariateWrites(tiv1, tiv2)
  {
    var d := FactorialDesign;
    if tiv1 != [] {
      WriteColumn(job, d + "cov(2).c = [", tiv1, tiv2, "];" + "\n" + "%%" + "\n");
      job.Write(
        d + "cov(2).cname = 'TIV';" + "\n" +
        d + "cov(2).iCFI = 1;" + "\n" +
        d + "cov(2).iCC = 1;" + "\n");
    }
  }

  /** The masking and global-normalization directives of `create_mfile_model`. */
  method WriteMasking(job: JobFile, mask: string, f: ModelFlags)
    modifies job
    ensures job.writes == old(job.writes) + MaskingWrites(mask, f)
  {
    var d := FactorialDesign;
    job.Write(
      d + "multi_cov = struct('files', {}, 'iCFI', {}, 'iCC', {});" + "\n" +
      d + "masking.tm.tm_none = 1;" + "\n" +
      d + "masking.im = 0;" + "\n" +
      d + "masking.em = {'" + mask + ",1'};" + "\n" +
      d + "globalc.g_omit = 1;" + "\n" +
      d + "globalm.gmsca.gmsca_no = 1;" + "\n" +
      d + "globalm.glonorm = " + IntToString(f.globalNorm) + ";" + "\n");
  }

  /** The estimation directives, in batch slot `slot`. */
  method WriteEstimate(job: JobFile, slot: string, spmMat: string)
    modifies job
    ensures job.writes == old(job.writes) + EstimateWrites(slot, spmMat)
  {
    job.Write(slot + "spmmat = {'" + spmMat + "'};\n");
    job.Write(slot + "write_residuals = 0;");
    job.Write(slot + "method.Classical = 1;");
  }

  /** The t-contrast directives, in batch slot `slot`. */
  method WriteContrast(job: JobFile, slot: string, spmMat: string, name: string, weights: string)
    modifies job
    ensures job.writes == old(job.writes) + ContrastWrites(slot, spmMat, name, weights)
  {
    job.Write(slot + "spmmat = {'" + spmMat + "'};\n");
    job.Write(slot + "consess{1}.tcon.name = '" + name + "';\n");
    job.Write(slot + "consess{1}.tcon.weights =" + weights + ";\n");
    job.Write(slot + "consess{1}.tcon.sessrep = 'none';\n");
    job.Write(slot + "delete = 0;\n");
  }

  /** Writes the segmentation options: prior, cores, tissue
      probability map, affine regularisation, bias accuracy. `useprior` is
      written twice. */
  method WriteCat12Options(job: JobFile, tpm: string, o: Cat12Options)
    modifies job
    ensures job.writes == old(job.writes) + Cat12OptionsWrites(tpm, o)
  {
    var d := CatEstwrite;
    ghost var start := job.writes;
    var w0 := d + "data_wmh = {''};" + "\n";
    job.Write(w0);
    var w1 := d + "nproc = " + IntToString(o.nproc) + ";\n";
    job.Write(w1);
    var w2 := d + "useprior = '';" + "\n";
    job.Write(w2);
    var w3 := d + "opts.tpm = {'" + tpm + "'};\n";
    job.Write(w3);
    var w4 := d + "useprior = '';" + "\n";
    job.Write(w4);
    var w5 := d + "opts.affreg = 'mni';" + "\n";
    job.Write(w5);
    var w6 := d + "opts.biasacc = " + o.biasAcc + ";\n";
    job.Write(w6);
    Appended7(start, w0, w1, w2, w3, w4, w5, w6);
  }

  /** Writes the extended options: preprocessing, shooting
      registration onto `volumes`, output resolution. */
  method WriteCat12Extopts(job: JobFile, volumes: string, o: Cat12Options)
    modifies job
    ensures job.writes == old(job.writes) + Cat12ExtoptsWrites(volumes, o)
  {
    var d := CatEstwrite;
    ghost var start := job.writes;
    var w0 := d + "extopts.APP = " + IntToString(o.app) + ";\n";
    job.Write(w0);
    var w1 := d + "extopts.spm_kamap = " + IntToString(o.kamap) + ";\n";
    job.Write(w1);
    var w2 := d + "extopts.LASstr = " + o.lasStr + ";\n";
    job.Write(w2);
    var w3 := d + "extopts.gcutstr = " + IntToString(o.gcutStr) + ";\n";
    job.Write(w3);
    var w4 := d + "extopts.WMHC = " + IntToString(o.wmhc) + ";\n";
    job.Write(w4);
    var w5 := d + "extopts.registration.shooting.shootingtpm = {'" + volumes + "'};\n";
    job.Write(w5);
    var w6 := d + "extopts.registration.shooting.regstr = " + o.regStr + ";\n";
    job.Write(w6);
    var w7 := d + "extopts.vox = " + o.voxSize + ";\n";
    job.Write(w7);
    var w8 := d + "extopts.restypes.optimal = " + o.restypesOptimal + ";\n";
    job.Write(w8);
    var w9 := d + "extopts.ignoreErrors = 1;\n";
    job.Write(w9);
    Appended10(start, w0, w1, w2, w3, w4, w5, w6, w7, w8, w9);
  }

  /** Writes the surface switches and the ROI atlases. */
  method WriteCat12Atlases(job: JobFile, o: Cat12Options)
    modifies job
    ensures job.writes == old(job.writes) + Cat12AtlasesWrites(o)
  {
    var d := CatOutput;
    ghost var start := job.writes;
    var w0 := d + "surface = " + IntToString(o.surface) + ";\n";
    job.Write(w0);
    var w1 := d + "surf_measures = " + IntToString(o.surfMeasures) + ";\n";
    job.Write(w1);
    var w2 := d + "ROImenu.atlases.neuromorphometrics = " + IntToString(o.neuromorphometrics) + ";\n";
    job.Write(w2);
    var w3 := d + "ROImenu.atlases.lpba40 = " + IntToString(o.lpba40) + ";\n";
    job.Write(w3);
    var w4 := d + "ROImenu.atlases.cobra = " + IntToString(o.cobra) + ";\n";
    job.Write(w4);
    var w5 := d + "ROImenu.atlases.hammers = " + IntToString(o.hammers) + ";\n";
    job.Write(w5);
    if o.ownAtlas == [] {
      job.Write(d + "ROImenu.atlases.ownatlas = {''};\n");
      Appended7(start, w0, w1, w2, w3, w4, w5, d + "ROImenu.atlases.ownatlas = {''};\n");
    } else {
      job.Write(d + "ROImenu.atlases.ownatlas = {'" + o.ownAtlas + "'};\n");
      Appended7(start, w0, w1, w2, w3, w4, w5, d + "ROImenu.atlases.ownatlas = {'" + o.ownAtlas + "'};\n");
    }
  }

  /** Writes the grey-matter, white-matter and CSF maps. */
  method WriteCat12Tissues(job: JobFile, o: Cat12Options)
    modifies job
    ensures job.writes == old(job.writes) + Cat12TissuesWrites(o)
  {
    var d := CatOutput;
    ghost var start := job.writes;
    var w0 := d + "GM.native = " + IntToString(o.gmNative) + ";\n";
    job.Write(w0);
    var w1 := d + "GM.mod = " + IntToString(o.gmMod) + ";\n";
    job.Write(w1);
    var w2 := d + "GM.dartel = " + IntToString(o.gmDartel) + ";\n";
    job.Write(w2);
    var w3 := d + "WM.native = " + IntToString(o.wmNative) + ";\n";
    job.Write(w3);
    var w4 := d + "WM.mod = " + IntToString(o.wmMod) + ";\n";
    job.Write(w4);
    var w5 := d + "WM.dartel = " + IntToString(o.wmDartel) + ";\n";
    job.Write(w5);
    var w6 := d + "CSF.native = " + IntToString(o.csfNative) + ";\n";
    job.Write(w6);
    var w7 := d + "CSF.warped = " + IntToString(o.csfWarped) + ";\n";
    job.Write(w7);
    var w8 := d + "CSF.mod = " + IntToString(o.csfMod) + ";\n";
    job.Write(w8);
    var w9 := d + "CSF.dartel = " + IntToString(o.csfDartel) + ";\n";
    job.Write(w9);
    Appended10(start, w0, w1, w2, w3, w4, w5, w6, w7, w8, w9);
  }

  /** Writes the cortical-thickness and position maps. */
  method WriteCat12Cortex(job: JobFile, o: Cat12Options)
    modifies job
    ensures job.writes == old(job.writes) + Cat12CortexWrites(o)
  {
    var d := CatOutput;
    ghost var start := job.writes;
    var w0 := d + "ct.native = " + IntToString(o.ctNative) + ";\n";
    job.Write(w0);
    var w1 := d + "ct.warped = " + IntToString(o.ctWarped) + ";\n";
    job.Write(w1);
    var w2 := d + "ct.dartel = " + IntToString(o.ctDartel) + ";\n";
    job.Write(w2);
    var w3 := d + "pp.native = " + IntToString(o.ppNative) + ";\n";
    job.Write(w3);
    var w4 := d + "pp.warped = " + IntToString(o.ppWarped) + ";\n";
    job.Write(w4);
    var w5 := d + "pp.dartel = " + IntToString(o.ppDartel) + ";\n";
    job.Write(w5);
    Appended6(start, w0, w1, w2, w3, w4, w5);
  }

  /** Writes the white-matter-hyperintensity and lesion maps. */
  method WriteCat12Lesions(job: JobFile, o: Cat12Options)
    modifies job
    ensures job.writes == old(job.writes) + Cat12LesionsWrites(o)
  {
    var d := CatOutput;
    ghost var start := job.writes;
    var w0 := d + "WMH.native = " + IntToString(o.wmhNative) + ";\n";
    job.Write(w0);
    var w1 := d + "WMH.warped = " + IntToString(o.wmhWarped) + ";\n";
    job.Write(w1);
    var w2 := d + "WMH.mod = " + IntToString(o.wmhMod) + ";\n";
    job.Write(w2);
    var w3 := d + "WMH.dartel = " + IntToString(o.wmhDartel) + ";\n";
    job.Write(w3);
    var w4 := d + "SL.native = " + IntToString(o.slNative) + ";\n";
    job.Write(w4);
    var w5 := d + "SL.warped = " + IntToString(o.slWarped) + ";\n";
    job.Write(w5);
    var w6 := d + "SL.mod = " + IntToString(o.slMod) + ";\n";
    job.Write(w6);
    var w7 := d + "SL.dartel = " + IntToString(o.slDartel) + ";\n";
    job.Write(w7);
    Appended8(start, w0, w1, w2, w3, w4, w5, w6, w7);
  }

  /** Writes the tissue-class, atlas and label maps.
      `labels_native` is written twice, as `label.native` and `labelnative`. */
  method WriteCat12Labels(job: JobFile, o: Cat12Options)
    modifies job
    ensures job.writes == old(job.writes) + Cat12LabelsWrites(o)
  {
    var d := CatOutput;
    ghost var start := job.writes;
    var w0 := d + "TPMC.native = " + IntToString(o.tpmcNative) + ";\n";
    job.Write(w0);
    var w1 := d + "TPMC.warped = " + IntToString(o.tpmcWarped) + ";\n";
    job.Write(w1);
    var w2 := d + "TPMC.mod = " + IntToString(o.tpmcMod) + ";\n";
    job.Write(w2);
    var w3 := d + "TPMC.dartel = " + IntToString(o.tpmcDartel) + ";\n";
    job.Write(w3);
    var w4 := d + "atlas.native = " + IntToString(o.atlasNative) + ";\n";
    job.Write(w4);
    var w5 := d + "label.native = " + IntToString(o.labelNative) + ";\n";
    job.Write(w5);
    var w6 := d + "label.warped = " + IntToString(o.labelWarped) + ";\n";
    job.Write(w6);
    var w7 := d + "label.dartel = " + IntToString(o.labelDartel) + ";\n";
    job.Write(w7);
    var w8 := d + "labelnative = " + IntToString(o.labelNative) + ";\n";
    job.Write(w8);
    Appended9(start, w0, w1, w2, w3, w4, w5, w6, w7, w8);
  }

  /** Writes the bias, local-adaptive-segmentation, Jacobian
      and deformation-field outputs. */
  method WriteCat12Deformations(job: JobFile, o: Cat12Options)
    modifies job
    ensures job.writes == old(job.writes) + Cat12DeformationsWrites(o)
  {
    var d := CatOutput;
    ghost var start := job.writes;
    var w0 := d + "bias.warped = " + IntToString(o.biasWarped) + ";\n";
    job.Write(w0);
    var w1 := d + "las.native = " + IntToString(o.lasNative) + ";\n";
    job.Write(w1);
    var w2 := d + "las.warped = " + IntToString(o.lasWarped) + ";\n";
    job.Write(w2);
    var w3 := d + "las.dartel = " + IntToString(o.lasDartel) + ";\n";
    job.Write(w3);
    var w4 := d + "jacobianwarped = " + IntToString(o.jacobianWarped) + ";\n";
    job.Write(w4);
    var w5 := d + "warps = " + o.warps + ";\n";
    job.Write(w5);
    Appended6(start, w0, w1, w2, w3, w4, w5);
  }

  /** The path set-up, output directory and scans of `run_cat12_new_model`. */
  method WriteCat12Scans(job: JobFile, spmPath: string, saveDir: string, group1: seq<string>, group2: seq<string>)
    modifies job
    ensures job.writes == old(job.writes) + Cat12ScansWrites(spmPath, saveDir, group1, group2)
  {
    var d := CatFactorialDesign;
    ghost var start := job.writes;
    var addpath := "addpath('" + spmPath + "');\n";
    job.Write(addpath);
    var opening := d + "dir = {'" + saveDir + "/'};" + "\n" + "%%" + "\n" + d + "des.t2.scans1 = {" + "\n";
    job.Write(opening);
    WriteList(job, group1, Frame, "};" + "\n" + "%%" + "\n");
    var scans2 := d + "des.t2.scans2 = {" + "\n";
    job.Write(scans2);
    WriteList(job, group2, Frame, "};" + "\n");
    PairThenLists(start, addpath, opening, ListWrites(group1, Frame, "};" + "\n" + "%%" + "\n"),
      scans2, ListWrites(group2, Frame, "};" + "\n"));
  }

  /** The flags, Age covariate, masking, TIV values and checks of
      `run_cat12_new_model`. */
  method WriteCat12Covariates(job: JobFile, ages1: seq<string>, ages2: seq<string>, tiv1: seq<string>, tiv2: seq<string>,
                              mask: string)
    modifies job
    ensures job.writes == old(job.writes) + Cat12CovariatesWrites(ages1, ages2, tiv1, tiv2, mask)
  {
    var d := CatFactorialDesign;
    ghost var start := job.writes;
    var flags := d + "des.t2.dept = 0;\n" + d + "des.t2.variance = 1;\n" + d + "des.t2.gmsca = 0;\n" + d + "des.t2.ancova = 0;\n";
    job.Write(flags);
    WriteColumn(job, d + "cov.c = [", ages1, ages2, "];\n");
    var age := d + "cov.cname = 'Age';" + "\n" + d + "cov.iCFI = 1;" + "\n" + d + "cov.iCC = 5;" + "\n";
    job.Write(age);
    var multiCov := d + "multi_cov = struct('files', {}, 'iCFI', {}, 'iCC', {});\n";
    job.Write(multiCov);
    var masking := d + "masking.tm.tm_none = 1;\n" + d + "masking.im = 1;\n";
    job.Write(masking);
    var explicitMask := d + "masking.em = {'" + mask + "'}\n;";
    job.Write(explicitMask);
    WriteColumn(job, d + "globals.g_ancova.global_uval = [", tiv1, tiv2, "];\n");
    var checks := d + "check_SPM.check_SPM_zscore.do_check_zscore.use_unsmoothed_data = 1;\n" +
      d + "check_SPM_zscore.do_check_zscore.adjust_data = 1;\n" +
      d + "check_SPM.check_SPM_ortho = 1;\n";
    job.Write(checks);
    ColumnsRegrouped(start, flags, ColumnWrites(d + "cov.c = [", ages1, ages2, "];\n"),
      age, multiCov, masking, explicitMask,
      ColumnWrites(d + "globals.g_ancova.global_uval = [", tiv1, tiv2, "];\n"), checks);
  }

  /** Every setting `cat12seg_imgs` writes after its data list, section by section. */
  method WriteCat12Settings(job: JobFile, tpm: string, volumes: string, o: Cat12Options)
    modifies job
    ensures job.writes == old(job.writes) + Cat12SettingsWrites(tpm, volumes, o)
  {
    WriteCat12Options(job, tpm, o);
    WriteCat12Extopts(job, volumes, o);
    WriteCat12Atlases(job, o);
    WriteCat12Tissues(job, o);
    WriteCat12Cortex(job, o);
    WriteCat12Lesions(job, o);
    WriteCat12Labels(job, o);
    WriteCat12Deformations(job, o);
    Regrouped8(old(job.writes), Cat12OptionsWrites(tpm, o), Cat12ExtoptsWrites(volumes, o),
      Cat12AtlasesWrites(o), Cat12TissuesWrites(o), Cat12CortexWrites(o),
      Cat12LesionsWrites(o), Cat12LabelsWrites(o), Cat12DeformationsWrites(o));
  }

  // A run of single writes is the run of their pieces, whatever the pieces are.

  lemma Appended6(s: seq<string>, a: string, b: string, c: string, d: string, e: string, f: string)
    ensures s + [a] + [b] + [c] + [d] + [e] + [f] == s + [a, b, c, d, e, f]
  {
  }

  lemma Appended7(s: seq<string>, a: string, b: string, c: string, d: string, e: string, f: string, g: string)
    ensures s + [a] + [b] + [c] + [d] + [e] + [f] + [g] == s + [a, b, c, d, e, f, g]
  {
  }

  lemma Appended8(s: seq<string>, a: string, b: string, c: string, d: string, e: string, f: string, g: string, h: string)
    ensures s + [a] + [b] + [c] + [d] + [e] + [f] + [g] + [h] == s + [a, b, c, d, e, f, g, h]
  {
  }

  lemma Appended9(s: seq<string>, a: string, b: string, c: string, d: string, e: string, f: string, g: string, h: string, i: string)
    ensures s + [a] + [b] + [c] + [d] + [e] + [f] + [g] + [h] + [i] == s + [a, b, c, d, e, f, g, h, i]
  {
  }

  lemma Appended10(s: seq<string>, a: string, b: string, c: string, d: string, e: string, f: string, g: string, h: string, i: string, j: string)
    ensures s + [a] + [b] + [c] + [d] + [e] + [f] + [g] + [h] + [i] + [j] == s + [a, b, c, d, e, f, g, h, i, j]
  {
  }

  lemma Appended11(s: seq<string>, a: string, b: string, c: string, d: string, e: string, f: string, g: string, h: string, i: string, j: string, k: string)
    ensures s + [a] + [b] + [c] + [d] + [e] + [f] + [g] + [h] + [i] + [j] + [k] == s + [a, b, c, d, e, f, g, h, i, j, k]
  {
  }

  lemma Regrouped7(s: seq<string>, a: seq<string>, b: seq<string>, c: seq<string>, d: seq<string>,
                   e: seq<string>, f: seq<string>, g: seq<string>)
    ensures s + a + b + c + d + e + f + g == s + (a + b + c + d + e + f + g)
  {
  }

  lemma Regrouped8(s: seq<string>, a: seq<string>, b: seq<string>, c: seq<string>, d: seq<string>,
                   e: seq<string>, f: seq<string>, g: seq<string>, h: seq<string>)
    ensures s + a + b + c + d + e + f + g + h == s + (a + b + c + d + e + f + g + h)
  {
  }

  lemma Regrouped3(s: seq<string>, a: seq<string>, b: seq<string>, c: seq<string>)
    ensures s + a + b + c == s + (a + b + c)
  {
  }

  lemma Regrouped4(s: seq<string>, a: seq<string>, b: seq<string>, c: seq<string>, d: seq<string>)
    ensures s + a + b + c + d == s + (a + b + c + d)
  {
  }

  // A list between single writes, in the shapes the renderers use.

  lemma ListThenOne(s: seq<string>, head: string, list: seq<string>, a: string)
    ensures s + [head] + list + [a] == s + ([head] + list + [a])
  {
  }

  lemma ListThenThree(s: seq<string>, head: string, list: seq<string>, a: string, b: string, c: string)
    ensures s + [head] + list + [a] + [b] + [c] == s + ([head] + list + [a, b, c])
  {
  }

  lemma ListThenFour(s: seq<string>, head: string, list: seq<string>, a: string, b: string, c: string, d: string)
    ensures s + [head] + list + [a] + [b] + [c] + [d] == s + ([head] + list + [a, b, c, d])
  {
  }

  lemma ThenThree(s: seq<string>, list: seq<string>, a: string, b: string, c: string)
    ensures s + list + [a] + [b] + [c] == s + (list + [a, b, c])
  {
  }

  lemma PairThenLists(s: seq<string>, a: string, b: string, list1: seq<string>, c: string, list2: seq<string>)
    ensures s + [a] + [b] + list1 + [c] + list2 == s + ([a, b] + list1 + [c] + list2)
  {
  }

  lemma ColumnsRegrouped(s: seq<string>, a: string, column1: seq<string>, b: string, c: string, d: string, e: string,
                         column2: seq<string>, f: string)
    ensures s + [a] + column1 + [b] + [c] + [d] + [e] + column2 + [f]
         == s + ([a] + column1 + [b, c, d, e] + column2 + [f])
  {
  }
}
