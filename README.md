# SPM batch-job renderers of anapyze, in Dafny

`spm.py` drives SPM12 and its CAT12 toolbox by writing MATLAB batch jobs
(`.m` files of `matlabbatch{…}` assignments) and running them through the
compiled SPM runtime. Each method of its `SPM` class has the same three
parts:
- it picks a job-file name, usually beside its first input image;
- it writes the batch text with a sequence of `write` calls;
- it returns the names of the images SPM is expected to produce. These
  names follow SPM's prefix conventions and are never checked.

This project models that class:

- `setup.dfy` (`Setup`) covers what `__init__` does:
  - the installation checks, with the file system given as the set of
    existing paths;
  - the run command, built with Python's `%`-formatting. Only the `%s`
    conversion is modelled.
- `decimal.dfy` (`Decimal`) is Python's `str()` on integers: the rendering
  of every integer parameter written into a job. It comes with its parser.
- `text.dfy` (`Text`) holds Python's `str.split`, the line layout of a job
  and the open job file. A `JobFile` is a class whose `writes` field
  records the arguments of the `write` calls, in order; the file's text is
  their concatenation.
- `paths.dfy` (`Paths`) has `os.path.split`, `os.path.join` (two
  arguments) and `basename`, exactly as POSIX Python defines them. It also
  has the negative-stop slice `s[0:-n]`.
- `naming.dfy` (`Naming`) derives every output name: resliced `r…`,
  warped `w…`, the `_sn.mat` transform matrix and the `y_…nii`
  deformation field. It also holds the output loops.
- `documents.dfy` (`Documents`) gives, for every renderer, the exact
  sequence of `write` arguments as a function of the renderer's
  parameters. Its lemmas say what that text holds, line by line: image
  lists, covariate columns, subject entries, the bounding box, the wrap
  flags, batch slots.
- `writers.dfy` (`Writers`) holds the loops and write sequences the
  renderers share. Each is a method proved to append exactly the pieces
  its `Documents` function lists.
- `spm.dfy` (`Spm`) is the `SPM` class itself. Each renderer is a method
  that opens a fresh `JobFile`, writes it, and returns the output names.
  Its contract states:
  - the job's path;
  - the job's writes, as the `Documents` function;
  - the outputs, as the `Naming` functions, and what `split` reads back
    from them.

## Model

| member | source | states |
|---|---|---|
| Setup.Format | spm.py:27 | `%`-formatting succeeds exactly when there are as many arguments as `%s` slots (otherwise Python raises `TypeError`) |
| Setup.RunCommandAsWritten | spm.py:27 | as written, the two-slot template is formatted with `spm_path` alone and yields no command |
| Setup.RunCommand | spm.py:27 | the intended command is `<spm_path>/run_spm12.sh <mcr_path> batch` |
| Setup.InitAsWrittenFails | spm.py:16-27 | `__init__` as written never yields an object; with the SPM path present and the runtime missing it fails on formatting, not with "not found" |
| Setup.Init | spm.py:16-27 | corrected `__init__`: ready exactly when both paths exist; otherwise it reports the first missing one with its own message; when ready, the run command joins both paths |
| Setup.RunMfileCommand | spm.py:30-32 | `run_mfile` hands the shell `<spm_run> <mfile>` |
| Decimal.NatToString | spm.py:105-108 | `str(n)`: non-empty, digits only, no leading zero except for 0 |
| Decimal.IntToString | spm.py:105-108 | `str(i)`: a leading `-` exactly for negative numbers, digits after it |
| Decimal.IntToStringRoundTrip | spm.py:105-108 | the rendered integer parses back to itself |
| Decimal.IntToStringInjective | spm.py:105-108 | distinct integers are written as distinct text |
| Text.JobFile.constructor | spm.py:43 | `open(name, "w")`: a job at that path with nothing written |
| Text.JobFile.Write | spm.py:45 | `write` appends its argument, after everything written so far |
| Text.ConcatLineWrites | spm.py:439-441 | writing each line followed by a newline gives the lines joined by newlines with a final newline |
| Text.SplitLinesUnlines | spm.py:439-441 | text written as whole lines reads back line by line as exactly those lines, then the lines of what follows |
| Paths.Split | spm.py:37 | `os.path.split`: the tail has no separator and ends the path; the head is a prefix of the text before the tail, and is empty, all separators, or does not end in a separator |
| Paths.HeadBeforeSeparators | spm.py:37 | only separators lie between the head and the tail, and the head stops before them unless it is itself that whole run: the head is the text up to the last separator with trailing separators stripped, or kept whole when stripping would leave nothing |
| Paths.TailAfterSeparator | spm.py:37 | the tail is the whole path or begins right after a separator: the path is cut at its last separator |
| Paths.Join | spm.py:39 | `os.path.join(a, b)`: ends with `b`; an absolute `b` replaces `a` |
| Paths.DropLast | spm.py:123 | `s[0:-n]`: the first `len(s)-n` characters, empty when `s` is shorter than `n` |
| Paths.SplitJoin | spm.py:62-63 | splitting a joined head and separator-free name gives both back |
| Paths.HeadBeforeBase | spm.py:37 | with a single separator before the basename, the head is the text before that separator (the lone root separator, or nothing, for a path of the form `/name` or `name`) |
| Paths.PrefixBasenameSplit | spm.py:62-63 | putting a prefix before the basename keeps the directory and yields the prefixed basename |
| Paths.PrefixBasenameInserts | spm.py:62-63 | without a doubled separator before the basename, prefixing is a pure insertion at the basename position |
| Naming.ResampleList | spm.py:80-81 | the resample list is never empty; it is the given list when that is non-empty, and exactly `[image_to_norm]` otherwise |
| Naming.ReslicedPathSplit | spm.py:62-63 | the coregistered output is in the source's directory, named `r` + its basename |
| Naming.WarpedPathSplit | spm.py:120-121 | a warped output is in the image's directory, named `w` + its basename |
| Naming.TransformMatrixBesideImage | spm.py:123 | the `_sn.mat` matrix is beside the image: its basename minus four characters, then `_sn.mat` |
| Naming.DeformationFieldName | spm.py:179-181 | the field lands beside the first resampled image, named `y_` + the normalized basename minus three characters + `nii` |
| Naming.DeformationFieldOfNifti | spm.py:180 | for a basename ending in `nii` the field is named `y_` + that basename |
| Naming.ResliceName | spm.py:62-63 | the name `coregister` returns is the resliced path |
| Naming.WarpName | spm.py:120-121 | the name returned for one image is its warped path |
| Naming.WarpedPaths | spm.py:173-177 | one output per input, in input order, each the input's warped path |
| Naming.WarpedIgnoresPrefix | spm.py:212-223 | for a prefix other than `w`, the returned name differs from the file the job asks SPM to write |
| Naming.PulledPaths | spm.py:220-224 | the output loop with the job's own prefix: one name per input, in order, each with that prefix before the basename; with `w` these are the warped paths |
| Documents.OpenedListText | spm.py:433-441 | an opener, the quoted `'<image>,1'` entries and `};` are written as whole lines, one entry per line |
| Documents.ColumnText | spm.py:456-461 | a covariate column's writes are the opening, the first group's values then the second group's, one per line, then the closing |
| Documents.ColumnVectorLines | spm.py:456-461 | the column reads back with its first value on the opening line, then one value per line |
| Documents.NormalizePetResampleLines | spm.py:84-93 | after the source and `wtsrc` lines, the first resampled image shares the `subj.resample = {` line (no newline follows the opener); each further image has its own line, in order; then `};` (an empty list closes on the opener's line) |
| Documents.NormalizeMriResampleLines | spm.py:143-151 | the `subj.vol` line, `subj.resample = {` on its own line, one `'<image>,1'` line per image in order, then `};` |
| Documents.NewDeformationsFnamesLines | spm.py:196-204 | the deformation-field line, `pull.fnames = {` on its own line, one `'<image>'` line per image in order, then `};` |
| Documents.OldDeformationsFnamesLines | spm.py:239-251 | the matrix, voxel and two-line bounding-box directives, the space image, `pull.fnames = {`, one `'<image>'` line per image in order, then `};` |
| Documents.DefaultBoundingBoxText | spm.py:71-72 | the default box renders as `-84 -102 -84`, a newline, `84 102 84];` |
| Documents.CornerFields | spm.py:105-106 | a corner row splits on spaces into exactly its three rendered coordinates |
| Documents.CornerInjective | spm.py:105-106 | distinct corners are written as distinct rows |
| Documents.BoundingBoxTextLines | spm.py:105-106 | the box is two lines: the first corner, then the second corner with `];` |
| Documents.BoundingBoxTextInjective | spm.py:105-106 | distinct boxes are written as distinct text |
| Documents.WrapDirectiveIff | spm.py:110-113 | the directive reads `[1 1 1]` exactly when wrapping and `[0 0 0]` exactly when not |
| Documents.SubjectLines | spm.py:319-323 | three directives per subject |
| Documents.SubjectLinesAt | spm.py:319-323 | lines 3i..3i+2 are the source, wtsrc and resample of subject i+1, naming the i-th image |
| Documents.SubjectWriteLines | spm.py:320-323 | one subject's write is its three directives as whole lines |
| Documents.SubjectWritesText | spm.py:319-323 | the subject loop writes every subject's directives, in subject order, as whole lines |
| Documents.SubjectsBeforeSharedOptions | spm.py:319-338 | the first 3N lines of the multi-PET job are the subject entries, before any shared option |
| Documents.SmoothDocLines | spm.py:364-368 | the smoothing job opens with `data = {`, one line per image in order, and `};` |
| Documents.TivCovariateNonEmpty | spm.py:469-482 | the TIV block writes something exactly when group 1 has TIVs |
| Documents.TivCovariateIffGroup1Tiv | spm.py:469-482 | the model text differs from the TIV-free model exactly when group 1 has TIVs |
| Documents.ModelScansText | spm.py:433-447 | the design opening and both scan lists are written as whole lines |
| Documents.ModelScansLines | spm.py:433-447 | the model job's first lines are the directory, `%%`, scans1 entries, `};`, scans2 entries, `};` |
| Documents.EstimateDocLines | spm.py:502-504 | the estimation job is two lines, the second holding both directives |
| Documents.ContrastDocLines | spm.py:508-518 | the contrast job is five lines: the `spmmat` reference, the name and the weights as given, `sessrep = 'none'`, `delete = 0`, each ended by a newline |
| Documents.Cat12ModelLines | spm.py:711-732 | the design ends its last line; after the design's lines come the slot-{2} `spmmat` line, one line in which `write_residuals`, `method.Classical` and the slot-{3} `spmmat` run together, then the `Atrophy` name, the `[1 -1 0 0]` weights, `sessrep` and `delete` lines |
| Documents.OwnAtlasDirective | spm.py:581-584 | `{''}` exactly when no own atlas is given, the atlas otherwise |
| Documents.Cat12SegDataLines | spm.py:549-552 | the segmentation job opens with `data = {`, one line per image in order, `};` |
| Writers.WriteList | spm.py:439-441 | the loop appends one quoted entry per item, in order, then the closing |
| Writers.WriteValues | spm.py:457-460 | the loop appends one value per line, in order |
| Writers.WriteColumn | spm.py:456-461 | appends the column: opening, group 1 values, group 2 values, closing |
| Writers.WriteSubjects | spm.py:319-323 | appends one three-directive write per subject, numbered from 1 |
| Writers.WriteWrap | spm.py:110-113 | appends the wrap directive chosen by `wrapping` |
| Writers.WriteAgeCovariate | spm.py:449-467 | appends the design flags and the Age column and its settings |
| Writers.WriteTivCovariate | spm.py:469-482 | appends the TIV block only when group 1 has TIVs |
| Writers.WriteMasking | spm.py:484-492 | appends the masking and global-normalization directives |
| Writers.WriteEstimate | spm.py:502-504 | appends the three estimation writes |
| Writers.WriteContrast | spm.py:514-518 | appends the five t-contrast writes |
| Writers.WriteCat12Options | spm.py:554-560 | appends the segmentation options, `useprior` twice |
| Writers.WriteCat12Extopts | spm.py:562-571 | appends the extended options |
| Writers.WriteCat12Atlases | spm.py:575-584 | appends the surface switches and atlases, the own atlas as chosen |
| Writers.WriteCat12Tissues | spm.py:586-597 | appends the GM, WM and CSF maps |
| Writers.WriteCat12Cortex | spm.py:599-605 | appends the thickness and position maps |
| Writers.WriteCat12Lesions | spm.py:607-615 | appends the WMH and SL maps |
| Writers.WriteCat12Labels | spm.py:617-627 | appends the TPMC, atlas and label maps, `labels_native` twice |
| Writers.WriteCat12Deformations | spm.py:629-634 | appends the bias, LAS, Jacobian and warp outputs |
| Writers.WriteCat12Settings | spm.py:554-634 | appends every segmentation setting, section by section |
| Writers.WriteCat12Scans | spm.py:656-675 | appends the path set-up, the directory and both scan lists |
| Writers.WriteCat12Covariates | spm.py:677-713 | appends the flags, Age column, masking, TIV values and checks |
| Spm.Spm.constructor | spm.py:16-27 | keeps both paths and builds the intended run command |
| Spm.Spm.Coregister | spm.py:35-65 | the job is `coregister.m` beside the source and holds the coregistration writes; the output is the `r`-prefixed source |
| Spm.Spm.NormalizePet | spm.py:68-125 | `normalize.m` beside the image, with the resample list defaulting to the image; returns the warped first resampled image and the `_sn.mat` matrix |
| Spm.Spm.NormalizeMri | spm.py:128-183 | `normalize.m` beside the image; returns one warped name per resampled image, in order, and the deformation field |
| Spm.Spm.NewDeformations | spm.py:186-226 | no job exactly when there is no image; `deformations.m` beside the first image; one `w` name per image whatever `prefix` is |
| Spm.Spm.OldDeformations | spm.py:229-271 | no job exactly when there is no image; the save directory is the first image's; one `w` name per image |
| Spm.Spm.ApplyNormalizationToAtlas | spm.py:274-301 | `deformations.m` beside the atlas, a push onto the normalized MRI; returns the `w`-prefixed atlas |
| Spm.Spm.NormalizeMultiplePets | spm.py:304-350 | `normalize.m` in the directory, one subject per image, then the shared options |
| Spm.Spm.SmoothMultipleImages | spm.py:353-377 | no job exactly when there is no image or fewer than three widths; otherwise `smooth.m` with the first three widths as kernel |
| Spm.Spm.CreateModel | spm.py:425-494 | the model job holds the scans, Age, optional TIV and masking writes, in that order |
| Spm.Spm.CreateEstimateModel | spm.py:496-506 | the estimation job on `spm_mat` |
| Spm.Spm.CreateContrast | spm.py:508-520 | the contrast job on `spm_mat` with the given name and weights |
| Spm.Spm.RunTwoSampleTTest | spm.py:380-423 | `model.m`, `estimate.m` and `results.m` in the directory, the last two on `SPM.mat` there |
| Spm.Spm.Cat12Segment | spm.py:522-641 | `cat12seg.m`, returned by name, holding the data list then every setting |
| Spm.Spm.RunCat12NewModel | spm.py:644-736 | `cat_12_vbm.m` in the directory: design, estimation and `Atrophy` contrast on `SPM.mat` there |

## Findings

| source | as written | input that shows it | evidently intended | confidence | as-written member | corrected member |
|---|---|---|---|---|---|---|
| spm.py:27 | `'%s/run_spm12.sh %s batch' % self.spm_path, self.mcr_path`: `%` binds first, so a two-slot template gets one argument | any `SPM(spm_path, mcr_path)` whose paths exist: `TypeError`, so no object is built | both paths formatted into the command | high (not executed) | Setup.RunCommandAsWritten | Setup.RunCommand |
| spm.py:24 | the MATLAB-runtime check tests `spm_path` again | `mcr_path` absent, `spm_path` present: the runtime is not reported missing | test `mcr_path` | high (not executed) | Setup.InitAsWrittenFails | Setup.Init |
| spm.py:212-223 | `new_deformations` asks SPM for `prefix` but returns `w` names | `prefix='s'`: the job writes `s<name>`, the method returns `w<name>` | return the names with `prefix` | medium (not executed) | Naming.WarpedIgnoresPrefix | Naming.PulledPaths |

`Spm.Spm.constructor` builds its command with `Setup.RunCommand`, and
`Naming.WarpedPaths` is `Naming.PulledPaths` with the prefix `w`.
`Spm.Spm.NewDeformations` keeps the names as written.

## Left out

- Running the jobs: `run_mfile`'s `os.system` call, the MATLAB runtime and SPM
  itself. Only the command line is modelled (`Setup.RunMfileCommand`). The
  output names are SPM's conventions, and nothing checks that the files exist.
- File-system effects: `exists`, `shutil.rmtree` and `os.makedirs` in
  `run_2sample_ttest` and `run_cat12_new_model`, and closing the job file.
  `exists` in `__init__` is modelled as membership in a given set of paths.
- `print` calls.
- `cat12seg_imgs`'s `run` flag, which only calls `run_mfile`.
- `spm_map_2_cohens_d` (spm.py:739-749) and `get_tvalue_thresholds_FDR`
  (spm.py:752-779): both read and write NIfTI images through nibabel and
  numpy, and compute in floating point. Their calls at the end of
  `run_2sample_ttest` are not modelled.
- Python's `str()` on floats (ages, TIVs, smoothing widths, bias accuracy,
  LAS and regularization strengths, voxel size). These parameters are taken
  as already-rendered strings. Integer parameters are rendered by
  `Decimal.IntToString`.
- Falsy defaults (`images_to_write=False`, `group1_tiv=False`,
  `atlas_custom=False`) are modelled as the empty list or string.
  - Python code paths that then fail are not modelled: `mask=False` in
    `create_mfile_model` concatenates a bool with a string, and
    `group2_tiv=False` with `group1_tiv` given iterates over a bool. Both
    raise `TypeError`.
  - `mask` and the TIV lists are always strings and lists here.
- An `IndexError` on an empty input list (`images_to_deform[0]`,
  `images_to_smooth[0]`, `smoothing[0..2]`) is modelled as "no job": the
  renderer returns `null` before any file is opened.
- Spm.Spm.NewDeformations: without images it still returns an empty name
  list, where Python raises `IndexError`.
- Spm.Spm.OldDeformations: without images it still returns an empty name
  list, where Python raises `IndexError`.
- Setup.Format: models only the `%s` conversion. Other `%` directives do
  not occur in the source's templates.
- Paths.Join: models only the two-argument form, the only one the source
  uses.
- Keyword defaults are not applied by the model: every caller passes
  every argument. The defaults are named constants: `DefaultBoundingBox`
  for `bb=None`, `DefaultVoxSize`, `DefaultWrapping` and
  `DefaultInterpolation` for `normalize_pet` and `normalize_mri`, and
  `DefaultContrastName` and `DefaultContrastWeights` for
  `create_mfile_contrast`. `bb=None` is therefore not a separate case.
- Bounding-box coordinates are integers. Python accepts any number there,
  and a float would be written by `str()` on floats, which is left out.
- CAT12's `gcutstr` is an integer, as its default `2` is. A fractional
  strength would also be written by `str()` on floats.
- `pipelines/IBIS/0_Reorder_Data.py`: a data-reordering script outside the
  `SPM` class. It is not part of this model.
