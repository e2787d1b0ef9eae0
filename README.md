# GGR-recon bookkeeping, modelled in Dafny

GGR-recon reconstructs one isotropic high-resolution MRI volume from
several low-resolution views. Its preprocessing script does these steps:
- checks the command line;
- records each input's directory, base name and extension;
- fixes the high-resolution grid;
- computes each view's low-resolution size;
- builds each view's slice-profile filter;
- writes a manifest of the working files;
- fuses the registered views into a mean image.

Its reconstruction script then reads the manifest, loads every view's
spectrum and filter, and finds the mean image. It runs one of two solvers:
- gradient-guided regularisation (GGR), which sums difference operators
  weighted by decay and edge terms;
- Tikhonov regularisation.

Finally it names, clips and saves the result.

This project models that bookkeeping: the checks, sizes, masks,
names, manifest protocol, loops and sums. It proves the following about
them:
- the manifest round trip;
- which errors each input leads to;
- every mask fits the grid when the grid is automatic;
- fusion computes a mean of non-empty views;
- the operator loop visits exactly the pruned triples;
- the regulariser's denominator is non-negative;
- the edge weight only damps;
- the progress bar sums to 100.

Signal processing is represented by its inputs: FFTs, Gaussian windows,
registration and image I/O. Volumes are flattened to one voxel index.
Spectra are taken at one bin. Numbers are exact reals and exact complex
values.

Modules (one file each): `Common`, `Strings`, `ComplexArith`, `Arguments`, `InputNames`,
`Grid`, `Filters`, `Manifest`, `Fusion`, `DataTerms`, `Regularizer`,
`Edges`, `Output`, `Progress`.

## Model

| member | source | states |
|---|---|---|
| Arguments.CheckInputsAsWritten | preprocess.py:44-53 | No images gives the "no images" error, and only then. A size list is refused exactly when its length differs from the number of images or some entry is not positive. Every other input is accepted. |
| Arguments.CheckInputs | preprocess.py:44-53 | Corrected check: it succeeds iff there is at least one image and any size has exactly three positive entries. No images gives the "no images" error, and only then; any other refusal is the bad-size error. |
| Arguments.ChecksAgreeOnThreeImages | preprocess.py:50 | With three images the written and the corrected checks give the same result for every size argument. |
| Arguments.SizeCheckCountsImages | preprocess.py:50 | The written check refuses a proper three-axis size with two images and accepts a one-entry size with one image; the corrected check does the opposite in both cases. |
| Arguments.SelectMethod | recon.py:29-47 | Both flags together are refused; Tikhonov is chosen exactly when only `--tik` is given, GGR exactly when `--tik` is absent. |
| InputNames.SplitInputPath | preprocess.py:74-82 | Definition of the recorded directory, base and extension of one input; its contract is InputNameShape and RebuildInputPath. |
| InputNames.InputNameShape | preprocess.py:73-82 | The recorded directory ends in `/`; the base has no dot or slash; the extension starts with a dot and has no slash; base and extension together spell the file name, and a name with no dot gives the whole name plus the extension `.`. |
| InputNames.RebuildInputPath | preprocess.py:73-89 | For a normalised path to a dotted file name, directory + base + extension is the given path, so the input volume name rebuilt later is the input itself. |
| InputNames.SplitInputs | preprocess.py:73-82 | The three lists the loop fills have one entry per input, and entry k is the split of input k. |
| Grid.ScaledExtentBounds | utils.py:47-53 | Rescaling to the finest spacing never shrinks an axis, and leaves axes at the finest spacing unchanged. |
| Grid.IsoSize | utils.py:47-55 | Every axis of the isotropic size is even, is at most the rescaled extent, loses at most one sample to parity, and is at least the native size made even; axes at the finest spacing keep their native size made even. |
| Grid.ExplicitSize | utils.py:57-64 | Each explicit length becomes even and loses at most one sample. It is kept unchanged exactly when it was already even. |
| Grid.CanonicalGrid | preprocess.py:107-114 | The grid's spacing is the first view's finest spacing on every axis. Its size is the explicit size made even when one is given, otherwise the isotropic size. Every length is even and non-negative, and every spacing positive. |
| Grid.RoundHalfEven | preprocess.py:162 | `np.around`: the result is within one half of the input, and an exact half rounds to the even neighbour. |
| Grid.ReferenceLrSize | preprocess.py:151-155 | The first view's low-resolution size is its native size made even, axis by axis. |
| Grid.MappedLrSize | preprocess.py:156-163 | A later view's size is even on every axis, at most its native size and at most the samples the grid needs, and at most one below the smaller of the two. |
| Grid.MappedLrSizeFitsGrid | preprocess.py:156-163 | On an axis where the view is coarser than the grid, the mapped size fits inside the grid. |
| Grid.ReferenceLrSizeFitsIsoGrid | preprocess.py:151-155 | On the automatic grid the first view's size fits on every axis. |
| Grid.LrSizeOf | preprocess.py:151-163 | A view's low-resolution size has three axes, each even, non-negative and at most the view's native size: the first view's reference size, any other view's mapped size. |
| Grid.ComputeLrSizes | preprocess.py:151-163 | The 3 x n tables hold, in column ii, view ii's low-resolution size and its spacing. |
| Grid.ArrayShape | recon.py:108-109 | The array shape is the grid size reversed (`m, n, d = sz` gives `[d, n, m]`). |
| Filters.IsFilterFor | preprocess.py:195-222 | Specification of one view's filter: the negative-dimension error if any qualifying axis's mask fails, the pass-through with no factor above one, otherwise the window along the selected axis. SynthesizeFilter meets it and FilterUnique shows it fixes the outcome. |
| Filters.Mask | preprocess.py:213-218 | Building the mask fails exactly when the view's mapped size exceeds the grid's length on that axis. The failure is the negative-dimension error. |
| Filters.MaskLayout | preprocess.py:213-218 | For an even size that fits, the mask has the grid's length and holds only zeros and ones. Exactly `lr` entries are one: the first `lr / 2` and the last `lr / 2`. |
| Filters.SelectedAxisUnique | preprocess.py:198-220 | The filtered axis is the first, and so the only, axis with the largest factor above one. |
| Filters.FilterUnique | preprocess.py:195-222 | The outcome of a view's filter synthesis is determined by its factors, low-resolution sizes and grid size. |
| Filters.SynthesizeFilter | preprocess.py:195-222 | Every qualifying axis builds its mask, so a failing mask on any of them gives the negative-dimension error. With no factor above one the filter is the scalar pass-through. Otherwise it is windowed along the selected axis, with that axis's factor and mask. |
| Filters.SynthesizeFilters | preprocess.py:194-224 | The loop succeeds exactly when no view's mask fails. It then gives one filter per view, each the specified filter for that view's column. |
| Filters.WindowMatchesArrayShape | preprocess.py:221 | After the transpose, a windowed filter's mask has the array's length along the mapped axis and keeps exactly the view's mapped number of frequencies. |
| Filters.ReferenceFilter | preprocess.py:195-222 | The first view gets the pass-through exactly when it is isotropic. Its window never runs along one of its finest axes. |
| Filters.RatioAboveOneIff | preprocess.py:199 | For positive spacings, the factor exceeds one exactly when the view's spacing exceeds the grid's. |
| Filters.AutomaticGridNeverFails | preprocess.py:151-220 | On the grid derived from the first view, no view's mask fails. |
| Filters.ExplicitGridCanFail | preprocess.py:107-220 | With an explicit size smaller than a coarse axis's extent, the first view's mask fails. |
| Manifest.ParseLine | recon.py:64-69 | A line fails exactly when it has no comma before its last character. Otherwise the two fields hold no comma. |
| Manifest.ParseAllLines | recon.py:64-69 | Parsing succeeds exactly when every line does; entry k is line k parsed. |
| Manifest.ReadManifest | recon.py:54-75 | A missing directory or manifest gives its own error. Otherwise the lines are those of a text-mode read: the run succeeds exactly when every line parses and there is at least one; a malformed line gives the malformed-line error; an empty manifest gives the no-images error; success gives two equally long, non-empty lists zipping to the parsed lines. |
| Manifest.ManifestLine | preprocess.py:171-176 | The record written for one view ends in a newline; its meaning is stated by ParseManifestLine and ManifestTextLines. |
| Manifest.ManifestText | preprocess.py:171-176 | The manifest is the views' records one after the other, in view order. |
| Manifest.ManifestTextLines | preprocess.py:171-176 | If no name holds a newline or a carriage return, the written manifest is read back as one line per view, in order, newline included. |
| Manifest.ParseManifestLine | preprocess.py:171-176 | A line written for view i parses back to that view's registered image name and filter name. |
| Manifest.ManifestRoundTrip | recon.py:64-69 | Reading the manifest preprocessing writes gives, for every view in order, the image name prefix + base + `_x` + ext and the filter name `h_` + base + `.mat`. The prefix is empty for view 0 and `reg_` for every later view. Names must hold no comma, newline or carriage return. |
| Manifest.ReadWrittenManifest | recon.py:54-75 | Reconstruction's read of the manifest written for one or more views succeeds, and its two lists hold those names in view order. |
| Manifest.ReturnInNameBreaksManifest | recon.py:65-69 | A carriage return in the first base name makes the text-mode read end the first line early. That line has no comma, so parsing fails although preprocessing wrote a well-formed record. |
| Manifest.ManifestNotEmpty | recon.py:71-75 | The manifest of at least one view is never read as empty. |
| Strings.Translate | recon.py:65 | Universal-newline translation of a text-mode read: `\r\n` and a lone `\r` become `\n`. It is never longer than the raw text; its meaning is stated by the three lemmas below. |
| Strings.TranslateRemovesReturns | recon.py:65 | No carriage return is left after translation. |
| Strings.TranslateKeepsPlainText | recon.py:65 | Text without carriage returns is read exactly as written. |
| Strings.TranslateIdempotent | recon.py:65 | Translating twice is translating once. |
| Strings.Lines | recon.py:65-66 | Translated text cut after each newline; every piece is non-empty. Its meaning is stated by LinesConcat and LinesEnd. |
| Strings.LinesConcat | recon.py:65-66 | Joining the pieces cut after each newline gives the text back. |
| Strings.LinesEnd | recon.py:65-66 | Every piece, except possibly the last, ends in a newline. No piece holds a newline before its last character. |
| Strings.ReadLines | recon.py:65-66 | The lines `for line in f` yields from a file opened in text mode: the translated text cut after each newline. Every line is non-empty. |
| Strings.ReadLinesShape | recon.py:65-66 | Joining the lines gives the translated text, not the raw one. No line holds a carriage return. Every line but the last ends in its only newline. |
| Fusion.AddView | preprocess.py:232-236 | Each voxel gains the view's value, and the occupancy gains one exactly where the view is nonzero. |
| Fusion.DivideOccupied | preprocess.py:238 | Voxels with nonzero occupancy are divided by it; the others are unchanged. |
| Fusion.MeanFuse | preprocess.py:229-238 | The occupancy is one plus the number of nonzero views, so never zero. Each fused voxel is the reference value plus all views' values, divided by the occupancy. |
| Fusion.NonZeroValuesSum | preprocess.py:229-238 | The sum over all views equals the sum over the nonzero ones, and the occupancy counts them. |
| Fusion.FusedIsMean | preprocess.py:229-238 | Each fused voxel is the arithmetic mean of the reference value and the nonzero views' values. |
| Fusion.AgreeingViewsKeepValue | preprocess.py:229-238 | Where all views agree with a nonzero reference value, fusion returns that value. |
| DataTerms.LoadViews | recon.py:108-116 | Column ii of the tables holds view ii's spectrum, and its filter broadcast when scalar. |
| DataTerms.AddViewTerms | utils.py:185-188 | One view adds `conj(w) y` to WY and `conj(w) w` to WW at every voxel. |
| DataTerms.AccumulateDataTerms | utils.py:185-188 | At every voxel, WY and WW are the sums of those terms over all views (also utils.py:112-115). |
| DataTerms.WwNonNegative | utils.py:185-188 | WW is a non-negative real at every voxel. |
| DataTerms.UnitFiltersSum | utils.py:185-188 | With all filters the scalar 1, WY is the plain sum of the spectra. |
| DataTerms.UnitFiltersCount | utils.py:185-188 | With all filters the scalar 1, WW is the number of views. |
| Regularizer.Triples | utils.py:165-169 | Definition of the triples the three loops visit, in loop order; its contract is TriplesMembers and TriplesCount. |
| Regularizer.TriplesMembers | utils.py:165-169 | A triple is visited iff it lies in the loop box (ll in -p..p; pp, qq in 0..p) and is not pruned (a negative sum, or the zero triple). |
| Regularizer.TriplesCount | utils.py:165-169 | At the default p = 2, exactly 40 operators are visited. |
| Regularizer.StencilIndicesInRange | utils.py:157-172 | The stencil indices of every visited triple are non-negative, and lie inside the five-entry lists exactly when p <= 2. |
| Regularizer.StencilSelection | utils.py:157-172 | At p = 1 the five-entry list is not re-centred: the visited triple (1,0,0) takes the identity along the first axis and the `-1` stencil along the other two. |
| Regularizer.StencilSelectionCentred | utils.py:157-172 | At the default p = 2 the list is centred: for every visited triple, the second- and third-axis stencils are the identity or a "plus" stencil, never a "minus" one. |
| Regularizer.ExponentBounds | utils.py:171 | Every visited triple's decay exponent is between 1 and 3p. |
| Regularizer.WeightBounds | utils.py:171 | For 0 < alpha < 1, every operator's weight lies strictly between 0 and 1. |
| Regularizer.SumDdNonNegative | utils.py:181 | For non-negative alpha, DD is a non-negative real whatever the stencil spectra. |
| Regularizer.AccumulateRow | utils.py:167-183 | The inner loop appends the kept triples of its row and adds exactly their terms. |
| Regularizer.AccumulateBlock | utils.py:166-183 | The middle loop appends the kept triples of its block and adds exactly their terms. |
| Regularizer.AccumulateRegularizer | utils.py:163-183 | Every kept triple is visited once, in loop order. DG and DD are the sums of the weighted `conj(D) G` and `conj(D) D` terms over them. |
| Edges.Sort | utils.py:175 | `np.sort` of one row: a permutation of its input. |
| Edges.SortSorted | utils.py:175 | The sorted row is ascending. |
| Edges.TauIndexInRange | utils.py:176 | For 0 <= tau_percent < 1 and a non-empty array, `int(N * tau_percent)` is a valid index. |
| Edges.PyIndex | utils.py:176 | Python indexing succeeds exactly for -N <= i < N. |
| Edges.Tau | utils.py:175-176 | Corrected threshold: one global sort of all magnitudes, then the index `int(N * tau_percent)`. Its contract is TauIsQuantile. |
| Edges.TauAsWritten | utils.py:175-176 | As written: rows along the last axis are sorted one by one, then flattened and indexed. |
| Edges.RowSortedTauDiffers | utils.py:175-176 | On the two rows [3, 4] and [1, 2] (two voxels along the last axis) at tau_percent 0.8, the written threshold is 2, while the 80 % quantile is 4. |
| Edges.TauAtLargest | utils.py:175-176 | When the index `int(N * tau_percent)` is the last position, the corrected threshold is the largest magnitude. |
| Edges.SingleRowAgrees | utils.py:175-176 | With a single row the two readings agree. |
| Edges.TauIsQuantile | utils.py:175-176 | The corrected threshold is the sorted magnitudes' entry at a valid index. At least idx + 1 magnitudes are at most tau, and N - idx are at least tau. |
| Edges.EdgeWeight | utils.py:178 | At g = 0, IEEE arithmetic gives 0 for tau > 0 and NaN (none) for tau = 0. Any other g has a value. |
| Edges.EdgeWeightDamps | utils.py:178 | For nonzero g the weighted value keeps its sign and never grows in magnitude. It equals g exactly when tau = 0. |
| Output.MeanMatches | recon.py:118 | The `img_mean.*` matches, in directory order, never more than the entries. MeanMatchesMembers states which paths they are. |
| Output.MeanMatchesMembers | recon.py:118 | A path matches `img_mean.*` iff it is the output directory followed by an entry starting with `img_mean.`. |
| Output.FindMeanFile | recon.py:118-124 | More than one match gives the ambiguity error; none gives the missing-file error (`mean_fns[0]` raises). The lookup succeeds exactly when there is one match, and then gives that file, with the extension as what follows `img_mean`. |
| Output.MeanFileFound | preprocess.py:241 | When the directory holds preprocessing's mean image and no other `img_mean.*` entry, the lookup finds it and recovers the first input's extension. |
| Output.TwoMeanFilesRefused | recon.py:119-121 | Two mean images with any extensions stop the run. |
| Output.OutputName | recon.py:134-138 | Definition of the output name; its contract is OutputNameShape, MethodsWriteDifferentFiles and OutputIsNotMean. |
| Output.OutputNameShape | recon.py:134-138 | The output name lies in the output directory, carries the method tag at a fixed place, and ends in the mean image's extension. |
| Output.MethodsWriteDifferentFiles | recon.py:134-138 | The two methods never write the same file. |
| Output.OutputIsNotMean | recon.py:134-138 | The reconstruction never overwrites the mean image. |
| Output.Clip | recon.py:142-145 | Clipping keeps the voxel count; ClipValues and ClipIdempotent state its values. |
| Output.ClipValues | recon.py:142-145 | Clipping leaves nothing negative, keeps non-negative values, and maps negative ones to 0. With `--keep-negative-values` nothing changes. |
| Output.ClipIdempotent | recon.py:142-145 | Clipping twice is clipping once. |
| Progress.LoadingTotal | recon.py:116 | The n loading steps of 20/n add up to 20. |
| Progress.GgrFillsBar | recon.py:106-152 | A GGR run at p = 2 advances the bar by exactly 100, for any number of views (steps at utils.py:161, 183, 190 and 194). |
| Progress.TikhonovFillsBar | utils.py:79-121 | A Tikhonov run advances the bar by exactly 100 (six steps of 65/6 inside the solver). |

## Left out

- FFTs, the Gaussian slice-profile magnitude (preprocess.py:201-211) and the final per-bin divisions (utils.py:119, 192) are not modelled. The Tikhonov kernel `w_tik` and the gradient spectrum `grad_ref` are not modelled either. Filters are modelled by their mask and axis; loaded filters and the edge-weighted spectrum `G` are inputs.
- Image I/O through SimpleITK, reorientation, resampling, `savemat`/`loadmat` and the resample-only branch are external library calls and are not modelled.
- Registration (preprocess.py:182-189) runs an external program through `os.system`, so it is not modelled.
- Console output and the progress bar itself are not modelled; only the advance amounts are. The misspelt `dumb_udpate` (utils.py:139) is unreachable from recon.py, which always passes a progress bar.
- Argument parsing, directory creation and output-path defaults are not modelled, beyond the checks in `Arguments`.
- ggr-gear/run.py is not part of this model.
- Floating point is not modelled: values are exact reals. This leaves out float32 casts, `uint32` casts on sizes, and rounding inside `np.floor`/`np.around` of float ratios.
- `str(reg_weight)` is an input text.
- Glob order, glob metacharacters in the output path, and pathlib's special `//` root are not modelled.
- Volumes are flattened, and the sums are stated at one frequency bin. Array layout beyond the axis reversal is not modelled.
- Regularizer.AccumulateRegularizer: requires p <= 2. For larger p the source raises `IndexError` at the stencil lookup; StencilIndicesInRange characterises exactly when.
- DataTerms.WwNonNegative: proves WW is non-negative but not that it is zero only where every filter is zero.
- Fusion.MeanFuse: reads the reference from `z` and states each voxel's exact value. Voxels outside some view after registration are covered by FusedIsMean, not by a separate field-of-view notion.
- Grid.CanonicalGrid: requires a three-entry size. The written check at preprocess.py:50 passes a size of any length equal to the number of images. Any length other than 3 then goes to SimpleITK's three-dimensional resampler (utils.py:57-64), which is not modelled, so no grid is modelled on that path.
- Text-mode reading is modelled as the default universal-newline translation on characters. Byte decoding and encodings are not modelled.
- Multi-echo input is not modelled: `n_imgs_per_echo` is taken to equal `n_imgs`. The `tau_percent` and `alpha` defaults are parameters.

## Findings

| source | as written | input that shows it | evidently intended | confidence | as-written member | corrected member |
|---|---|---|---|---|---|---|
| preprocess.py:50 | The size list's length is compared with the number of input images. | Two images with `-s 312 384 330` are refused. One image with `-s 312` is accepted by the check and hands a one-entry size to SimpleITK's resampler. | Exactly three positive lengths, one per axis, as the help text's example `-s 312 384 330` shows (preprocess.py:28-31). | high; not executed | Arguments.SizeCheckCountsImages | Arguments.CheckInputs |
| utils.py:175-176 | `np.sort` sorts each row along the last axis; the flattened result is indexed as if globally sorted. | Two rows of two voxels each, `[3, 4]` and `[1, 2]`, at `tau_percent = 0.8`: tau is 2, but the 80 % quantile is 4. | `tau` as the `tau_percent` quantile of all gradient magnitudes, from one global sort. | medium; not executed | Edges.RowSortedTauDiffers | Edges.TauIsQuantile |
