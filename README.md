# Cortical layers: a verified model

This project models the data core of the cortical layers analysis code in Dafny.
For each subject, a region-by-class probability matrix gives, for every atlas
region, the probability of each of the six cortical layer classes. The code
projects such a matrix onto an atlas label volume, which gives one "class
probability map" per class. It averages the matrices of a cohort into mean
matrices and mean maps, and caches and saves those results. It attaches matrices
and CANTAB test results to a registry of subjects. It picks and validates the
"results set" (the six class maps) that the two dashboards display, and it cuts
sagittal, coronal and horizontal slices out of the volumes.

Modules follow the source files, one module per file:

- Atlases: `ResearchAtlas` (zero-based key shift) and `HelperAtlas` (no shift). Both use `Templates`, which models the label template, `np.unique` and the projection.
- Probability-by-region matrices: `LayersPbr`, `HelperPbr` and `ResearchPbr`. They share `ClassMaps`, which covers the region dictionary, class maps and class file names.
- Fixed-shape matrix: `SubjectLayers`.
- Cohort analyses: `ResearchAnalysis` and `LayersAnalysis`.
- Subject registries: `ResearchSubject`, `HelperSubject` and `AppSubject`. The typed data slots shared by the first two are in `SubjectData`.
- Registry joins: `ResearchLoader`.
- DAOs (data access objects): `ResearchDao` and `AppDao`, plus the summary results in `AppSummary`.
- Brain matrices and slicers: `ResearchBrainMatrix`, `AppBrainMatrix`, `AppHelpers` and `ViewerSlices`.
- Spreadsheet and CANTAB rules: `SheetParser`, `RowBySession` and `Cantab`.

Shared helper modules:

- `Wrappers`: Option, Result and the Python exceptions.
- `Text`: strings, `str.split`, `os.path` and `sorted`.
- `Grids`: matrices, 3-D and 4-D volumes with explicit shapes, `rot90`, `fliplr`, `transpose`, `np.stack`, mean and standard deviation.
- `FileSystem`: a disk as a map from paths to contents plus a set of directories, with `np.save`, `np.load` and `loadmat`.

How the model is written:

- Volumes keep their shape even when an axis is empty, as numpy arrays do.
- Probabilities are `real`.
- The square root inside the standard deviation is a function parameter.
- The file system, the `glob` listings and the atlas template are inputs to the operations.
- Where the source changes an object step by step, the model is a class:
  - the analyses and their cache fields;
  - the matrices and their validating `data` and `path` setters;
  - the subjects and their `id` setter and `add_data`;
  - the registry loader;
  - the DAOs.
- Each method is proved against a function of its inputs and its old state, and the lemmas beside it state what the source promises.

## Model

| member | source | states |
|---|---|---|
| Templates.Unique | research/data_classes/cortical_layers/brain_atlas.py:11-12 | The region ids are exactly the template's labels, strictly increasing and without repeats. |
| Templates.IncreasingUnique | research/data_classes/cortical_layers/brain_atlas.py:11 | Two strictly increasing sequences with the same elements are equal, so the result of `np.unique` is determined. |
| Templates.Projection | cortical_layers/helpers/brain_atlas.py:15-20 | The raveled result has the template's length. Voxel values are stated by `ProjectVolumeAt`. |
| Templates.ProjectVolume | cortical_layers/helpers/brain_atlas.py:20 | A valid volume of the template's shape. |
| Templates.ProjectVolumeAt | cortical_layers/helpers/brain_atlas.py:17-20 | Voxel [a][b][c] of the projected volume depends only on its own label and the dictionary. |
| Templates.ProjectionIgnoresForeignKeys | cortical_layers/helpers/brain_atlas.py:17-18 | Two dictionaries that agree on every label present (same membership, same values) give the same projection. |
| Templates.FillLabel | research/data_classes/cortical_layers/brain_atlas.py:27 | `new_array[template == id] = v` overwrites exactly the voxels labelled `id`. |
| ResearchAtlas.RaisedKeys | research/data_classes/cortical_layers/brain_atlas.py:17-22 | `k` is in the raised key set iff `k-1` is a key of the dictionary. |
| ResearchAtlas.ShiftUp | research/data_classes/cortical_layers/brain_atlas.py:23-27 | In shifted mode, region `r` receives `value_dict[r-1]`. |
| ResearchAtlas.Effective | research/data_classes/cortical_layers/brain_atlas.py:17-27 | Without key 0 the dictionary is applied as given. The shifted mode is stated by `ShiftUp`. |
| ResearchAtlas.BrainAtlas.constructor | research/data_classes/cortical_layers/brain_atlas.py:8-12 | `region_ids` are the sorted distinct template labels and `n_regions` is their count. |
| ResearchAtlas.BrainAtlas.ConvertFromDict | research/data_classes/cortical_layers/brain_atlas.py:14-28 | The imperative fill loop over the region ids. The result has the template's shape and equals the projection of the effective dictionary. |
| ResearchAtlas.ConvertedVoxel | research/data_classes/cortical_layers/brain_atlas.py:23-27 | A voxel labelled `r` gets `value_dict[r]`, or `value_dict[r-1]` in shifted mode, when that key exists; otherwise it is 0. |
| ResearchAtlas.ShiftedBackgroundIsZero | research/data_classes/cortical_layers/brain_atlas.py:16-27 | With a 0-based dictionary over non-negative keys, background voxels stay 0. |
| ResearchAtlas.ShiftDown | research/data_classes/cortical_layers/brain_atlas.py:17-20 | Key `k` is present iff `k+1` is, and holds `d[k+1]`: the 1-based dictionary re-keyed from 0. |
| ResearchAtlas.ZeroAndOneBasedAgree | research/data_classes/cortical_layers/brain_atlas.py:17-27 | A 1-based dictionary and its 0-based re-keying convert to the same volume. |
| HelperAtlas.BrainAtlas.constructor | cortical_layers/helpers/brain_atlas.py:8-12 | `region_ids` are the sorted distinct template labels and `n_regions` is their count. |
| HelperAtlas.BrainAtlas.ConvertFromDict | cortical_layers/helpers/brain_atlas.py:14-20 | The zero-start fill loop. The result has the template's shape and equals the unshifted projection. |
| HelperAtlas.ConvertedVoxel | cortical_layers/helpers/brain_atlas.py:17-19 | A voxel labelled `r` gets `value_dict[r]` when `r` is a key, and 0 otherwise. |
| HelperAtlas.BackgroundKeyApplies | cortical_layers/helpers/brain_atlas.py:17-19 | There is no shift: a key 0 is written onto the background voxels. |
| ClassMaps.RegionProbabilityDict | cortical_layers/helpers/cortical_layers/probability_by_region_matrix.py:115-125 | Its keys are exactly 1..R, and key `i+1` maps to `data[i][c]`. |
| ClassMaps.ClassProbabilityMap | cortical_layers/helpers/cortical_layers/probability_by_region_matrix.py:127-136 | A class map has the template's shape. Its voxels are stated by `ClassMapVoxel`. |
| ClassMaps.ClassMapVoxel | cortical_layers/helpers/cortical_layers/probability_by_region_matrix.py:127-136 | A voxel labelled `i+1` carries `data[i][c]`; every other voxel, background included, is 0. |
| ClassMaps.ClassFileNameSplit | research/data_classes/cortical_layers/analysis.py:65-66 | `class_{i}_{atlas}` splits on '_' into exactly three fields, the middle one being the index text. |
| ClassMaps.ClassFileNamesDistinct | cortical_layers/helpers/cortical_layers/probability_by_region_matrix.py:161-162 | Different classes get different file names. |
| ClassMaps.ClassMapPath | cortical_layers/helpers/cortical_layers/probability_by_region_matrix.py:149-150 | `np.save` writes the joined path plus ".npy", and its base name is the class file name plus ".npy". |
| ClassMaps.ClassMapPathsDistinct | cortical_layers/helpers/cortical_layers/probability_by_region_matrix.py:160-163 | Different classes are saved to different files. |
| ClassMaps.SavedMaps | cortical_layers/helpers/cortical_layers/probability_by_region_matrix.py:160-163 | Saving creates no directory. The files written are stated by `SavedMapFile` and `SavedMapsOthers`. |
| ClassMaps.SavedMapFile | cortical_layers/helpers/cortical_layers/probability_by_region_matrix.py:160-163 | After saving, class i is on disk under its own name with its own map. |
| ClassMaps.SavedMapsOthers | cortical_layers/helpers/cortical_layers/probability_by_region_matrix.py:160-163 | Saving touches no file other than the class files. |
| ResearchPbr.ClassIndexText | research/data_classes/cortical_layers/analysis.py:56-57 | `f'{class_idx}'` is the decimal text of an integer index, and the text itself for a loaded one. |
| ResearchPbr.ClassMap | research/data_classes/cortical_layers/analysis.py:48-49 | A class map through the research atlas carries its class and atlas; its voxels labelled `i+1` hold `data[i][c]` and all others 0. |
| ResearchPbr.AllClassMaps | research/data_classes/cortical_layers/analysis.py:51-52 | Six maps, the i-th being the map of class i. |
| LayersPbr.ValidateData | cortical_layers/helpers/cortical_layers/probability_by_region_matrix.py:82-113 | Validation passes iff the class axis has 6 entries; the region count against the atlas does not affect the outcome. |
| LayersPbr.SubjectIdOf | cortical_layers/helpers/cortical_layers/probability_by_region_matrix.py:244-255 | The id holds no '.', and it is "" when no path is set. `SubjectIdOfJoin` gives the id of a file `<dir>/<id>.<ext>`. |
| LayersPbr.SubjectIdOfJoin | cortical_layers/helpers/cortical_layers/probability_by_region_matrix.py:252-253 | A file `<dir>/<id>.<ext>`, where `id` has no '.' or '/', yields `id`. |
| LayersPbr.SubjectIdOfPlainName | cortical_layers/helpers/cortical_layers/probability_by_region_matrix.py:252-253 | A base name without a '.' is the subject id unchanged. |
| LayersPbr.ReadOutcome | cortical_layers/helpers/cortical_layers/probability_by_region_matrix.py:41-56 | The path changes exactly when nothing is raised, and only to an existing file. The data only changes to a valid matrix with 6 class columns. A ".mat" or ".npy" file succeeds iff its matrix has 6 class columns; any other file succeeds iff it exists, and keeps the data. |
| LayersPbr.ClassMapContents | cortical_layers/helpers/cortical_layers/probability_by_region_matrix.py:161-163 | The six class maps, in class order, as the arrays that are saved. |
| LayersPbr.ProbabilityByRegionMatrix.Blank | cortical_layers/helpers/cortical_layers/probability_by_region_matrix.py:13-14 | The object before loading: no data and the empty path. |
| LayersPbr.ProbabilityByRegionMatrix.Create | cortical_layers/helpers/cortical_layers/probability_by_region_matrix.py:18-31 | An existing file gives the `ReadOutcome` of a blank object: its error, or a fresh matrix with that data and path. Otherwise no array raises `ValueError`; an array is accepted iff it has 6 class columns, and is then the data with an empty path; otherwise `AssertionError`. |
| LayersPbr.ProbabilityByRegionMatrix.LoadData | cortical_layers/helpers/cortical_layers/probability_by_region_matrix.py:33-39 | An existing file gives exactly the `ReadOutcome` error, data and path. Otherwise a given array goes through the validating setter; with neither, `ValueError` and nothing changes. |
| LayersPbr.ProbabilityByRegionMatrix.ReadFromFile | cortical_layers/helpers/cortical_layers/probability_by_region_matrix.py:41-56 | The error, data and path are the `ReadOutcome`. A ".mat" or ".npy" file goes through the validating setter, any other name loads nothing, and the path is then set. |
| LayersPbr.ProbabilityByRegionMatrix.SetData | cortical_layers/helpers/cortical_layers/probability_by_region_matrix.py:222-232 | A valid matrix is stored. A wrong class count raises `AssertionError` and leaves the data unchanged. |
| LayersPbr.ProbabilityByRegionMatrix.SetPath | cortical_layers/helpers/cortical_layers/probability_by_region_matrix.py:187-199 | Only an existing file becomes the path; anything else raises `FileNotFoundError` and keeps the old path. |
| LayersPbr.ProbabilityByRegionMatrix.SubjectId | cortical_layers/helpers/cortical_layers/probability_by_region_matrix.py:244-255 | The id of the stored path holds no '.', and it is "" when no path is set. |
| LayersPbr.ProbabilityByRegionMatrix.NRegions | cortical_layers/helpers/cortical_layers/probability_by_region_matrix.py:234-242 | The data's row count; with no data it is an `AttributeError`. |
| LayersPbr.ProbabilityByRegionMatrix.GetRegionProbabilityDict | cortical_layers/helpers/cortical_layers/probability_by_region_matrix.py:115-125 | The 1-based dictionary of one class column. A class index outside the columns is `IndexError`; no data is `TypeError`. |
| LayersPbr.ProbabilityByRegionMatrix.CreateClassProbabilityMap | cortical_layers/helpers/cortical_layers/probability_by_region_matrix.py:127-136 | Equals `atlas.convert_from_dict(get_region_probability_dict(c))`, with the same errors. |
| LayersPbr.ProbabilityByRegionMatrix.SaveAllClassProbabilityMaps | cortical_layers/helpers/cortical_layers/probability_by_region_matrix.py:152-165 | Saving writes the `SavedMaps` of the class maps into an existing directory. A target that is not a directory raises `NotADirectoryError`, and missing data raises `TypeError`; in both cases the disk is unchanged. |
| HelperPbr.ValidateData | cortical_layers/helpers/probability_by_region_matrix.py:35-37 | True iff the class axis has 6 entries; otherwise `AssertionError`. |
| HelperPbr.SameValidation | cortical_layers/helpers/probability_by_region_matrix.py:35-37 | The two matrix revisions accept exactly the same matrices, whatever the atlas's region count. |
| HelperPbr.ArrayTruth | cortical_layers/helpers/probability_by_region_matrix.py:23 | An array's truth value: false when empty, its only element's value for one element, and `ValueError` for more. |
| HelperPbr.InitSourceAsWritten | cortical_layers/helpers/probability_by_region_matrix.py:19-24 | The constructor's dispatch as written: a file, then the truth test on the array. |
| HelperPbr.ArrayInputRejected | cortical_layers/helpers/probability_by_region_matrix.py:23 | As written, every array that could pass validation makes the constructor raise `ValueError`. |
| HelperPbr.InitSourceOf | cortical_layers/helpers/probability_by_region_matrix.py:19-24 | The intended dispatch: a file if given, else an array if given, else nothing. |
| HelperPbr.InitSourceAgrees | cortical_layers/helpers/probability_by_region_matrix.py:21-24 | Wherever the written dispatch does not raise, the intended one chooses the same source. |
| HelperPbr.ProbabilityByRegionMatrix.Blank | cortical_layers/helpers/probability_by_region_matrix.py:19-24 | With neither argument, `data` stays `None`. |
| HelperPbr.ProbabilityByRegionMatrix.Create | cortical_layers/helpers/probability_by_region_matrix.py:19-24 | A file is read, an array is validated and stored, and with neither the data stays `None`; or the error raised. |
| HelperPbr.ProbabilityByRegionMatrix.ReadFromFile | cortical_layers/helpers/probability_by_region_matrix.py:26-27 | The matrix file's `results` variable goes through the validating setter, or the `loadmat` error is raised. |
| HelperPbr.ProbabilityByRegionMatrix.SetData | cortical_layers/helpers/probability_by_region_matrix.py:59-62 | Stored only when the class axis has 6 entries; otherwise `AssertionError` and nothing changes. |
| HelperPbr.ProbabilityByRegionMatrix.NRegions | cortical_layers/helpers/probability_by_region_matrix.py:64-66 | The atlas's region count, not the data's row count. |
| HelperPbr.ProbabilityByRegionMatrix.GetRegionProbabilityDict | cortical_layers/helpers/probability_by_region_matrix.py:42-43 | Key `i+1` maps to `data[i][c]` for every row; no data is `TypeError` and a bad index is `IndexError`. |
| HelperPbr.ProbabilityByRegionMatrix.CreateClassProbabilityMap | cortical_layers/helpers/probability_by_region_matrix.py:45-46 | The atlas conversion of that dictionary for every index it accepts; an index -6..-1 gives the map of class c + 6. |
| HelperPbr.ProbabilityByRegionMatrix.CreateAllClassProbabilityMaps | cortical_layers/helpers/probability_by_region_matrix.py:48-50 | Exactly 6 maps stacked on a new first axis; entry i is the map of class i. |
| SubjectLayers.ValidateShape | cortical_layers/helpers/subject_layers_matrix.py:17-19 | Passes iff the data is 1000 x 6; otherwise `AssertionError`. |
| SubjectLayers.SubjectLayersMatrix.constructor | cortical_layers/helpers/subject_layers_matrix.py:10-12 | Stores the path and the data that was read. |
| SubjectLayers.SubjectLayersMatrix.Create | cortical_layers/helpers/subject_layers_matrix.py:10-15 | The matrix holds the `results` variable of the file at the path, or the `loadmat` error is raised. |
| SubjectLayers.SubjectLayersMatrix.GetData | cortical_layers/helpers/subject_layers_matrix.py:21-23 | Returns the stored matrix unchanged, and only when it is 1000 x 6. |
| ResearchAnalysis.Datas | research/data_classes/cortical_layers/analysis.py:28 | The data of every matrix, in cohort order. |
| ResearchAnalysis.StackPbrs | research/data_classes/cortical_layers/analysis.py:21-28 | Matrices with the same row count stack to R x 6 x N with `[r][c][s] == pbrs[s][r][c]`. Different row counts or an empty cohort raise `ValueError`. |
| ResearchAnalysis.MeanOf | research/data_classes/cortical_layers/analysis.py:30-37 | It succeeds exactly when the stack does, and any error is `ValueError`. Entry [r][c] is the mean over subjects of the stacked entry [r][c]. |
| ResearchAnalysis.StdOf | research/data_classes/cortical_layers/analysis.py:39-46 | Entry [r][c] is the deviation over subjects of the stacked entry [r][c]. |
| ResearchAnalysis.MeanOfRepeated | research/data_classes/cortical_layers/analysis.py:30-37 | One matrix repeated k times has that matrix as its mean. |
| ResearchAnalysis.StdOfRepeated | research/data_classes/cortical_layers/analysis.py:39-46 | One matrix repeated k times has the root of zero as its deviation everywhere. |
| ResearchAnalysis.MeanClassMap | research/data_classes/cortical_layers/analysis.py:48-49 | The map of class c of the mean matrix: a voxel labelled `i+1` holds the mean of region i. |
| ResearchAnalysis.MeanMaps | research/data_classes/cortical_layers/analysis.py:51-52 | Six maps, the i-th being built from class i of the mean matrix. |
| ResearchAnalysis.SavedProbabilityMaps | research/data_classes/cortical_layers/analysis.py:54-59 | Saving creates no directory. The files written are stated by `SavedCreatedMaps`. |
| ResearchAnalysis.Contents | research/data_classes/cortical_layers/analysis.py:59 | The arrays of a list of maps, as saved. |
| ResearchAnalysis.SavedCreatedMaps | research/data_classes/cortical_layers/analysis.py:54-59 | Saving the created class maps writes exactly the files `class_{i}_{atlas}.npy`. |
| ResearchAnalysis.LoadedMaps | research/data_classes/cortical_layers/analysis.py:62-69 | At most one map per path. Each map has a class index given as text and the requested atlas name. Any error is `ValueError`. |
| ResearchAnalysis.ClassFiles | research/data_classes/cortical_layers/analysis.py:57-59 | The six class files of a directory, in class order. |
| ResearchAnalysis.ClassFilesSorted | research/data_classes/cortical_layers/analysis.py:63 | `sorted` puts single-digit class files in class order. |
| ResearchAnalysis.ClassFileFields | research/data_classes/cortical_layers/analysis.py:65-66 | A class file's base name splits into "class", the index text and the atlas file name. |
| ResearchAnalysis.LoadedFiles | research/data_classes/cortical_layers/analysis.py:62-69 | Loading files that are all map files reads each of them, in order. |
| ResearchAnalysis.SavedClassFiles | research/data_classes/cortical_layers/analysis.py:54-66 | After saving, every class file is a map file whose fields name its class. |
| ResearchAnalysis.LoadAfterSave | research/data_classes/cortical_layers/analysis.py:54-69 | Round trip: the six created maps, saved and then loaded from their files listed in any order, come back with their data and their class index text. |
| ResearchAnalysis.SerializedMaps | research/data_classes/cortical_layers/analysis.py:71-75 | `None` unless the mean directory exists and its `*.npy` listing is non-empty; otherwise the loaded maps. |
| ResearchAnalysis.FreshMeanMaps | research/data_classes/cortical_layers/analysis.py:95-107 | With nothing kept: the serialized maps when there are any; otherwise the created maps, saved into the mean directory, which is made if missing. |
| ResearchAnalysis.CreatedMeanMaps | research/data_classes/cortical_layers/analysis.py:99-107 | The created branch: on success the mean maps, with the mean directory existing afterwards. On failure the disk is unchanged. `FileExistsError` happens exactly when a file sits where the missing directory should go. |
| ResearchAnalysis.FreshCreates | research/data_classes/cortical_layers/analysis.py:99-106 | With no listing, the created mean maps are saved into the mean directory. |
| ResearchAnalysis.SavedReloads | research/data_classes/cortical_layers/analysis.py:97-99 | Saved mean maps are found again by a later session. |
| ResearchAnalysis.MeanMapsPersist | research/data_classes/cortical_layers/analysis.py:95-107 | Maps created and saved in one session are the ones a later session loads back. |
| ResearchAnalysis.CorticalLayersAnalysis.constructor | research/data_classes/cortical_layers/analysis.py:18-19 | Stores the matrices; every cache is empty. |
| ResearchAnalysis.CorticalLayersAnalysis.SetPbrs | research/data_classes/cortical_layers/analysis.py:18-19 | Reassigning the matrices drops and recomputes nothing: every kept value, and the cohort it was computed from, stays. |
| ResearchAnalysis.CorticalLayersAnalysis.StackCohort | research/data_classes/cortical_layers/analysis.py:77-81 | The cohort whose stack `stacked_pbrs` returns: the kept stack's cohort, else the current matrices. All its matrices are valid. |
| ResearchAnalysis.CorticalLayersAnalysis.MeanCohort | research/data_classes/cortical_layers/analysis.py:83-87 | The cohort whose mean `mean_pbr` returns: the kept mean's, else the kept stack's, else the current matrices. All its matrices are valid. |
| ResearchAnalysis.CorticalLayersAnalysis.StdCohort | research/data_classes/cortical_layers/analysis.py:89-93 | The cohort whose deviation `std_pbr` returns, chosen in the same way. All its matrices are valid. |
| ResearchAnalysis.CorticalLayersAnalysis.StackedPbrs | research/data_classes/cortical_layers/analysis.py:77-81 | The stack of `StackCohort`: the kept stack when there is one, however the matrices were reassigned since; otherwise the stack of the current matrices, which is then kept. |
| ResearchAnalysis.CorticalLayersAnalysis.MeanPbr | research/data_classes/cortical_layers/analysis.py:83-87 | The mean of `MeanCohort`: the kept mean when there is one; otherwise the mean of the stack `stacked_pbrs` returns, which may be a kept stale one. The mean is then kept. |
| ResearchAnalysis.CorticalLayersAnalysis.StdPbr | research/data_classes/cortical_layers/analysis.py:89-93 | The deviation of `StdCohort`: the kept deviation when there is one; otherwise that of the stack `stacked_pbrs` returns, which may be a kept stale one. It is then kept. |
| ResearchAnalysis.ReassignedKeepsValues | research/data_classes/cortical_layers/analysis.py:77-93 | After the matrices are reassigned, a kept stack, mean or deviation comes back unchanged, as the value of the earlier cohort. Only what was not kept is computed from the new matrices, or from the kept stack. |
| ResearchAnalysis.CorticalLayersAnalysis.CreateMeanProbabilityMap | research/data_classes/cortical_layers/analysis.py:48-49 | The class map of the mean `mean_pbr` returns, which is `MeanOf(MeanCohort())`. |
| ResearchAnalysis.CorticalLayersAnalysis.CreateMeanProbabilityMaps | research/data_classes/cortical_layers/analysis.py:51-52 | `MeanMaps` of the cohort whose mean `mean_pbr` returns: `n_classes` maps, the i-th from class i of that mean. |
| ResearchAnalysis.CorticalLayersAnalysis.SaveProbabilityMaps | research/data_classes/cortical_layers/analysis.py:54-59 | The loop over the maps; the new disk is `SavedProbabilityMaps`. |
| ResearchAnalysis.CorticalLayersAnalysis.LoadProbabilityMaps | research/data_classes/cortical_layers/analysis.py:61-69 | The loop over the sorted paths; the result is `LoadedMaps` of the sorted paths. |
| ResearchAnalysis.CorticalLayersAnalysis.LoadMeanProbabilityMaps | research/data_classes/cortical_layers/analysis.py:71-75 | Equals `SerializedMaps` for the given listing. |
| ResearchAnalysis.CorticalLayersAnalysis.MeanProbabilityMaps | research/data_classes/cortical_layers/analysis.py:95-107 | Returns the kept list; otherwise the `FreshMeanMaps` outcome for the cohort of `mean_pbr`, which is then kept and never recomputed. |
| ResearchAnalysis.CorticalLayersAnalysis.CreateAndSaveMeanMaps | research/data_classes/cortical_layers/analysis.py:99-107 | The created maps are kept, then saved into the mean directory. The outcome is `CreatedMeanMaps` of the cohort of `mean_pbr`. |
| LayersAnalysis.ChosenFile | cortical_layers/analysis.py:41-42 | `None` and the empty name both pick the default file. |
| LayersAnalysis.FromFile | cortical_layers/analysis.py:47-53 | `np.load` of the exact path. A missing file raises `FileNotFoundError`; a file that is not a 4-D array raises `ValueError`. |
| LayersAnalysis.DefaultIsNpy | cortical_layers/analysis.py:15 | The default file name ends in ".npy", so `np.save` writes it under that very name. |
| LayersAnalysis.SavedMeansReload | cortical_layers/analysis.py:44-51 | An array saved under a ".npy" name is what loading that name returns. |
| LayersAnalysis.SavedUnderOtherName | cortical_layers/analysis.py:40-53 | Saving under a name without ".npy" writes `name.npy`, while loading reads `name`, so the saved array is not read back under the name given. |
| LayersAnalysis.AalClassMean | cortical_layers/analysis.py:26-31 | The template's shape. Voxels labelled `i+1`, for each region i, hold `subjects_mean[i][c]`; every other voxel is 0. Negative c counts from the end. |
| LayersAnalysis.AalClassMeanVoxel | cortical_layers/analysis.py:27-31 | Voxel by voxel: label `i+1` (i < n_regions) gives region i's mean, and any other label gives 0. |
| LayersAnalysis.NoRegionsAllZero | cortical_layers/analysis.py:29-31 | With no regions, every voxel of the class mean is 0. |
| LayersAnalysis.AllClassMeans | cortical_layers/analysis.py:33-38 | The class means of classes 0..n-1, stacked along a new last axis. |
| LayersAnalysis.AllClassMeansInOrder | cortical_layers/analysis.py:35-36 | Class c of the stacked volume is the class mean of class c. |
| LayersAnalysis.KeptClass | cortical_layers/analysis.py:25 | `kept[:, :, :, c]`. Negative c counts from the end; an index outside the class axis is `IndexError`. |
| LayersAnalysis.KeptClasses | cortical_layers/analysis.py:25-36 | Re-stacking the kept volume's classes gives back the kept volume's entries. |
| LayersAnalysis.Volume4Truth | cortical_layers/analysis.py:24 | An array's truth value: false when empty, its only element's value for one element, `ValueError` for more. |
| LayersAnalysis.UsesKeptAsWritten | cortical_layers/analysis.py:24 | The test as written, applied to the cached volume. |
| LayersAnalysis.KeptVolumeRejected | cortical_layers/analysis.py:24-25 | As written, once a volume of two or more voxels is cached, every class-mean request raises `ValueError`. |
| LayersAnalysis.UsesKept | cortical_layers/analysis.py:24 | The intended test: use the cached volume whenever there is one. |
| LayersAnalysis.KeptAgreesWithComputed | cortical_layers/analysis.py:23-31 | With the intended test, a cached volume of the cohort answers every class exactly as recomputing would. |
| LayersAnalysis.CorticalLayersAnalysis.constructor | cortical_layers/analysis.py:17-18 | Stores the data; every cache is empty. |
| LayersAnalysis.CorticalLayersAnalysis.MeanAcrossSubjects | cortical_layers/analysis.py:20-21 | The mean over axis 2, of shape R x C; entry [r][c] is the mean over subjects. |
| LayersAnalysis.CorticalLayersAnalysis.SubjectsMean | cortical_layers/analysis.py:75-79 | Computed on first access and then returned unchanged. |
| LayersAnalysis.CorticalLayersAnalysis.GetClassMeanOverAal | cortical_layers/analysis.py:23-31 | The painting loop. The result is the cached volume's class when there is one (checked with `is not None`, see the Findings), otherwise `AalClassMean`. |
| LayersAnalysis.CorticalLayersAnalysis.GetAllClassMeansOverAal | cortical_layers/analysis.py:33-38 | The class means stacked in class order, under the corrected cache test; with no class, `np.stack` raises `ValueError`. |
| LayersAnalysis.CorticalLayersAnalysis.AllClassMeansOverAal | cortical_layers/analysis.py:81-89 | Returns the cached volume; otherwise the default file's volume if it exists; otherwise the computed volume, saved to the default file and then cached. |
| LayersAnalysis.CorticalLayersAnalysis.SaveAllClassMeansOverAal | cortical_layers/analysis.py:40-45 | `np.save` of the volume the property returns, under the chosen name. The new disk is stated case by case: a kept volume is saved; a default file is read and saved again, or its error leaves the disk; a computed volume goes to the default file and to the chosen one; with no class, `ValueError` and nothing is written. |
| LayersAnalysis.ComputedMeansPersist | cortical_layers/analysis.py:81-89 | A fresh analysis reads back from the default file the volume that was computed and saved. |
| SubjectData.KindOf | research/data_classes/subject.py:12-17 | A value has one of the four slot classes unless it is of a class the slots do not know. |
| SubjectData.ExpectedKind | research/data_classes/subject.py:36 | `additional_data_classes.get(attr)`: the slot's class for the four slot names, and nothing otherwise. |
| SubjectData.AddedSlots | research/data_classes/subject.py:35-39 | `add_data` keeps every slot holding a value of its own class. |
| SubjectData.AddedSlotsIgnores | research/data_classes/subject.py:36-38 | An unknown name or a wrong-typed value changes nothing. |
| SubjectData.AddedSlotsSets | research/data_classes/subject.py:37-39 | A value of the slot's class is stored in that slot. |
| SubjectData.AddedSlotsOthers | research/data_classes/subject.py:39 | Every other slot is unchanged. |
| ResearchSubject.Subject.constructor | research/data_classes/subject.py:19-27 | A subject with a valid id stores the id and personal attributes, with empty data slots. |
| ResearchSubject.Subject.Create | research/data_classes/subject.py:19-27 | A subject is produced iff the id is nine ASCII digits; otherwise `ValueError`. |
| ResearchSubject.Subject.SetId | research/data_classes/subject.py:52-57 | A valid id is stored. An invalid one raises `ValueError` and keeps the old id. |
| ResearchSubject.Subject.AddData | research/data_classes/subject.py:35-39 | The slot is set only for a known name and a value of its class; otherwise nothing changes. |
| ResearchSubject.Subject.ToDict | research/data_classes/subject.py:41-43 | Exactly the keys `id`, `name_id`, `sex`, `date_of_birth`, `dominant_hand` and `gender`, with the stored values. |
| ResearchSubject.ToStringSplits | research/data_classes/subject.py:45-46 | From `str(s)`, a name id without '/' and the id can be read back. |
| HelperSubject.Subject.constructor | cortical_layers/helpers/subject.py:21-30 | A subject with a valid id stores the id, the attributes and `results_dir = join(results_dir, id)`. |
| HelperSubject.Subject.Create | cortical_layers/helpers/subject.py:21-30 | A subject is produced iff the id is valid; otherwise `ValueError`. |
| HelperSubject.Subject.SetId | cortical_layers/helpers/subject.py:51-56 | A valid id is stored. An invalid one raises `ValueError` and keeps the old id. The results directory keeps the id it was made with. |
| HelperSubject.Subject.AddData | cortical_layers/helpers/subject.py:41-45 | The slot is set only for a known name and a value of its class, and only that slot changes. |
| HelperSubject.Subject.HasResultsDir | cortical_layers/helpers/subject.py:38-39 | True only when the results directory exists on the disk. |
| HelperSubject.SavingKeepsResultsDir | cortical_layers/helpers/subject.py:38-39 | Saving a file never changes whether a subject has its results directory. |
| HelperSubject.ResultsDirNamesSubject | cortical_layers/helpers/subject.py:30 | A subject's results directory is a direct child of the results root, named by its id. |
| AppSubject.Subject.ProbabilityMapPath | app/subject.py:23-34 | `results_dir/class_{i}_{atlas}.npy`. |
| AppSubject.Subject.ProbabilityMap | app/subject.py:36-51 | The stored volume when the file exists, and `None` otherwise. |
| AppSubject.Subject.BrainMatrixOf | app/subject.py:53-66 | A brain matrix tagged with this subject and the class. A missing map gives `None` data, not an error. |
| AppSubject.Subject.AllProbabilityMaps | app/subject.py:68-77 | Six brain matrices in class order, the i-th tagged with class i. |
| AppSubject.NameAndScanDate | app/subject.py:85-91 | `name + scan_date == subject_id`, and `name` has at most 4 characters. |
| AppSubject.ReadsSavedMaps | app/subject.py:36-77 | The maps that `save_all_class_probability_maps` writes into the subject's results directory are the ones read back, class by class. |
| AppSummary.SummaryResults.MeanProbabilityMapPath | app/summary_results.py:26-37 | `results_dir/summary/mean/class_{i}_{atlas}.npy`. |
| AppSummary.SummaryResults.AllMeanProbabilityMapPaths | app/summary_results.py:39-40 | Six paths in class order. |
| AppSummary.SummaryResults.MeanProbabilityMap | app/summary_results.py:42-55 | The saved volume, or `None` when there is no file. |
| AppSummary.SummaryResults.MeanBrainMatrix | app/summary_results.py:57-71 | Present iff the map is present; it is then tagged "mean" and the class. |
| AppSummary.SummaryResults.AllClassMeans | app/summary_results.py:73-83 | Present iff every AAL map file exists; then six mean brain matrices in class order. |
| AppSummary.Init | app/summary_results.py:14-18 | `mean_pbr` is loaded iff the mean matrix file exists. |
| AppSummary.AllClassMeansGatedByAal | app/summary_results.py:82 | Whatever atlas is asked for, whether there is a result is decided by the AAL files. |
| AppSummary.SavedMeansAreRead | app/summary_results.py:57-83 | Six maps saved into the mean directory come back tagged "mean" and their class. |
| ResearchBrainMatrix.ParsePlane | research/data_classes/cortical_layers/brain_matrix.py:23-24 | Only the three plane names select a slicer. |
| ResearchBrainMatrix.ParsePlaneName | research/data_classes/cortical_layers/brain_matrix.py:5 | Each plane's name selects that plane. |
| ResearchBrainMatrix.SagittalSlice | research/data_classes/cortical_layers/brain_matrix.py:11-12 | The slice is the transpose of `data[i, :, :]`; a bad index is `IndexError`. |
| ResearchBrainMatrix.CoronalSlice | research/data_classes/cortical_layers/brain_matrix.py:14-15 | Shape Z x X with `[p][q] == data[X-1-q][j][p]`. |
| ResearchBrainMatrix.HorizontalSlice | research/data_classes/cortical_layers/brain_matrix.py:17-18 | Shape Y x X with `[p][q] == data[X-1-q][p][k]`. |
| ResearchBrainMatrix.SagittalUnmirrored | research/data_classes/cortical_layers/brain_matrix.py:11-12 | Mirroring the sagittal slice left-to-right gives the quarter-turned section. |
| ResearchBrainMatrix.BrainMatrix.CreateSlice | research/data_classes/cortical_layers/brain_matrix.py:20-24 | A plane name dispatches to its slicer; any other name is `AttributeError`. |
| ResearchBrainMatrix.BrainMatrix.GetMultiPlanar | research/data_classes/cortical_layers/brain_matrix.py:26-29 | [sagittal, coronal, horizontal] at the three indices when all three cuts succeed; any failure is `IndexError`. |
| Grids.Rot270 | research/data_classes/cortical_layers/brain_matrix.py:15 | `rot90(m, 3)`: shape swapped, with `[p][q] == m[rows-1-q][p]`. |
| Grids.FlipLR | research/data_classes/cortical_layers/brain_matrix.py:12 | `fliplr(m)`: `[p][q] == m[p][cols-1-q]`. |
| Grids.Transpose | cortical_layers/data_viewer.py:75 | `transpose(m)`: `[p][q] == m[q][p]`. |
| Grids.FlipRotIsTranspose | research/data_classes/cortical_layers/brain_matrix.py:12 | `fliplr(rot90(A, 3)) == transpose(A)`. |
| Grids.StackMatrices | research/data_classes/cortical_layers/analysis.py:28 | `np.stack(ms, axis=-1)`: `v[r][c][s] == ms[s][r][c]`. |
| Grids.StackVolumes | cortical_layers/analysis.py:35-36 | `np.stack(vs, axis=-1)`: `w[a][b][d][c] == vs[c][a][b][d]`. |
| Grids.ClassOfStack | cortical_layers/analysis.py:25-36 | Class c of a stack is the c-th stacked volume. |
| Grids.MeanLast | research/data_classes/cortical_layers/analysis.py:37 | The element-wise mean over the last axis. |
| Grids.StdLast | research/data_classes/cortical_layers/analysis.py:46 | The element-wise deviation over the last axis. |
| Grids.Reshape | cortical_layers/analysis.py:31 | A valid volume of the requested shape. |
| Grids.ReshapeAt | cortical_layers/analysis.py:31 | `reshape` in C order: voxel [a][b][d] is the flat element at its C-order offset. |
| AppBrainMatrix.BrainMatrix.GetSlice | app/brain_matrix.py:22-26 | The slicer is looked up by name first (an unknown name is `AttributeError`), then `None` data is `TypeError`. The three cuts are those of the research brain matrix. |
| AppBrainMatrix.BrainMatrix.GetMultiPlanar | app/brain_matrix.py:31-34 | The three cuts, in `slice_planes` order. |
| AppBrainMatrix.BrainMatrix.PlanarSlices | app/brain_matrix.py:36-39 | `dict(zip(slice_planes, slices))` keys each slice by its own plane. |
| AppHelpers.ClassSection | app/helpers.py:21-28 | A well-formed matrix. Its entries are stated by `ClassSectionOfClassVolume`. |
| AppHelpers.ClassSectionOfClassVolume | app/helpers.py:21-28 | A section of the 4-D image equals the same section of the class's 3-D volume. |
| AppHelpers.AllClassAalHandler.PlaneSlice | app/helpers.py:21-28 | It equals the brain-matrix slicer applied to `image[..., c]`. A class index out of range is `IndexError`. |
| AppHelpers.AllClassAalHandler.GetSlice | app/helpers.py:30-34 | Dispatches on the plane name; an unknown name is `AttributeError`. |
| AppHelpers.AllClassAalHandler.GetAllPlanesByCoords | app/helpers.py:36-40 | [sagittal, coronal, horizontal] of one class. |
| AppHelpers.AllClassAalHandler.NClasses | app/helpers.py:65-67 | `image.shape[-1]`: exactly the class indices below it can be cut. |
| ViewerSlices.DataHandler.SagittalSlice | cortical_layers/data_viewer.py:68-69 | Shape Z x Y with `[p][q] == image[s][Y-1-q][p][c]`. |
| ViewerSlices.DataHandler.CoronalSlice | cortical_layers/data_viewer.py:71-72 | `image[:, s, :, c]`, without rotation. |
| ViewerSlices.DataHandler.HorizontalSlice | cortical_layers/data_viewer.py:74-75 | The transpose of `image[:, :, s, c]`. |
| ViewerSlices.DataHandler.ShownSlice | cortical_layers/data_viewer.py:42-54 | Both sliders are one-based: the coronal cut shown is at slider value - 1 for the slice and the class. |
| ViewerSlices.SagittalMirrorsDashboard | cortical_layers/data_viewer.py:68-69 | The viewer's sagittal cut is the dashboard's sagittal cut mirrored left-to-right. |
| ViewerSlices.CoronalUnturnedDashboard | cortical_layers/data_viewer.py:71-72 | The viewer's coronal cut is the dashboard's coronal cut before its quarter turn. |
| ViewerSlices.SliceSliderEndAsWritten | cortical_layers/data_viewer.py:36 | The slider end as written is the length of the third axis, the one the horizontal cut indexes. |
| ViewerSlices.SliderEndOverrunsCoronalAxis | cortical_layers/data_viewer.py:36-44 | When the third axis is longer than the second, the last slider value cuts past the second axis (`IndexError`). |
| ViewerSlices.SliceSliderEnd | cortical_layers/data_viewer.py:36 | The intended slider end: the length of the axis that the coronal cut indexes. |
| ViewerSlices.SliderCoversCoronalAxis | cortical_layers/data_viewer.py:36-44 | With the intended end, every slider position shows a cut and every coronal cut has a position. |
| SheetParser.FixColumnName | research/data_classes/sheets/xlsx_parser/sheet_parser.py:12-13 | The fixed name has neither spaces nor apostrophes. |
| SheetParser.LowerKeeps | research/data_classes/sheets/xlsx_parser/sheet_parser.py:13 | Lower-casing introduces neither a space nor an apostrophe. |
| SheetParser.FixColumnNameIdempotent | research/data_classes/sheets/xlsx_parser/sheet_parser.py:12-13 | Fixing twice is fixing once. |
| SheetParser.FixedColumnNamesDict | research/data_classes/sheets/xlsx_parser/sheet_parser.py:15-16 | Every column name maps to its fixed form. |
| SheetParser.FixIndexNames | research/data_classes/sheets/xlsx_parser/sheet_parser.py:22-23 | The index names are fixed one by one, in order. |
| SheetParser.FixIndex | research/data_classes/sheets/xlsx_parser/sheet_parser.py:25-26 | Length `max(9, len)`: the input is the tail, with only '0's in front. |
| SheetParser.FixIndexIdempotent | research/data_classes/sheets/xlsx_parser/sheet_parser.py:25-26 | Fixing an index value twice is fixing it once. |
| SheetParser.PaddedDigits | research/data_classes/sheets/xlsx_parser/sheet_parser.py:25-26 | Padding a digit string keeps it a digit string. |
| SheetParser.FixIndexRestoresNumericId | research/data_classes/sheets/xlsx_parser/sheet_parser.py:3-26 | A number below 10^9 comes back as nine digits, which is a valid subject id. |
| RowBySession.Select | research/data_classes/cantab/row_by_session.py:18-22 | `df.loc[mask]`: at most the table's rows, each of them a matching row of the table, and every matching row is selected. |
| RowBySession.RowBySessionResults.NameColumnError | research/data_classes/cantab/row_by_session.py:19 | Lowering `Subject ID` succeeds iff every row holds text there. Otherwise a table without the column raises `KeyError`, and any other raises `TypeError`. |
| RowBySession.RowBySessionResults.SubjectByNameId | research/data_classes/cantab/row_by_session.py:18-19 | The rows matching the name when the column can be lowered, else that exception. |
| RowBySession.RowBySessionResults.SubjectByDob | research/data_classes/cantab/row_by_session.py:21-22 | The rows holding exactly that date text; a table without the column raises `KeyError`. |
| RowBySession.SelectSingle | research/data_classes/cantab/row_by_session.py:18-22 | A row that alone matches is selected alone. |
| RowBySession.SelectNone | research/data_classes/cantab/row_by_session.py:18-22 | With no matching row, nothing is selected. |
| RowBySession.SelectSeveral | research/data_classes/cantab/row_by_session.py:18-22 | Two matching rows select at least two. |
| RowBySession.RowBySessionResults.SubjectSeries | research/data_classes/cantab/row_by_session.py:24-37 | The name query's exception is raised, and with no name match the date query's. A row returned is one of the table, and it matches the name unless no row does. The cases are stated by `NameMatchWins`, `AmbiguousNameGivesNothing`, `DobFallback`, `DobFallbackFails`, `MissingDobColumnRaises` and `NonTextNameRaises`. |
| RowBySession.RowBySessionResults.SubjectResults | research/data_classes/cantab/row_by_session.py:39-40 | The lookup is always wrapped, even when nothing is found; its exception is raised. |
| RowBySession.NameMatchWins | research/data_classes/cantab/row_by_session.py:36-37 | A unique name match is returned whatever its date of birth. |
| RowBySession.AmbiguousNameGivesNothing | research/data_classes/cantab/row_by_session.py:34-35 | Two or more name matches give nothing, without a date-of-birth fallback. |
| RowBySession.DobFallback | research/data_classes/cantab/row_by_session.py:26-33 | With no name match, a unique date-of-birth match is returned. |
| RowBySession.DobFallbackFails | research/data_classes/cantab/row_by_session.py:26-31 | With no name match, zero or several date-of-birth matches give nothing. |
| RowBySession.MissingDobColumnRaises | research/data_classes/cantab/row_by_session.py:19-27 | With no name match and no `Date of birth` column, the lookup raises `KeyError`. |
| RowBySession.NonTextNameRaises | research/data_classes/cantab/row_by_session.py:18-19 | One cell of `Subject ID` that is not text makes every lookup raise `TypeError`, even a lookup that another row matches. |
| RowBySession.NameMatchIgnoresCase | research/data_classes/cantab/row_by_session.py:18-19 | The name match ignores case on both sides. |
| Cantab.CantabResults.GetMeasure | research/data_classes/cantab/cantab_results.py:8-9 | `series[name]`; no row is `TypeError` and a missing measure is `KeyError`. |
| Cantab.CantabResults.GetTaskMeasures | research/data_classes/cantab/cantab_results.py:11-13 | Exactly the row's measures whose name starts with the task and has no space, with their original values. |
| Cantab.TaskMeasuresAreMeasures | research/data_classes/cantab/cantab_results.py:8-13 | Each measure a task lookup returns reads the same through `get_measure`. |
| ResearchLoader.First | research/data_classes/data_loader.py:24-26 | The position of the first subject with the id. |
| ResearchLoader.FirstUnknown | research/data_classes/data_loader.py:29-35 | The first matrix whose id matches no subject. |
| ResearchLoader.LastIndex | research/data_classes/data_loader.py:28-33 | The position of the last matrix with the id. |
| ResearchLoader.LastFor | research/data_classes/data_loader.py:28-33 | There is a matrix for an id iff some matrix has that id, and it has that id. `LastForAppend` makes it the last one. |
| ResearchLoader.LastForAppend | research/data_classes/data_loader.py:29-33 | A later matrix with the same id overwrites an earlier one. |
| ResearchLoader.FormatDate | research/data_classes/data_loader.py:40 | `strftime('%d/%m/%y')`: `dd/mm/yy`, each field two digits. |
| ResearchLoader.PbrSlots | research/data_classes/data_loader.py:28-33 | After attaching, a subject's `pbr` slot holds the last matrix of its id, if there is one. |
| ResearchLoader.PbrStep | research/data_classes/data_loader.py:30-33 | Attaching one matrix replaces only its owner's `pbr` slot. |
| ResearchLoader.CantabSlot | research/data_classes/data_loader.py:38-43 | The `cantab` slot holds the lookup for the name id and the `dd/mm/yy` date of birth. |
| ResearchLoader.Failure | research/data_classes/data_loader.py:38-41 | The exception of a subject's turn: `AttributeError` without a date of birth; without a name id, the table's name-column error or else `AttributeError`; with both, the lookup's exception exactly when the lookup raises. |
| ResearchLoader.Lookup | research/data_classes/data_loader.py:38-41 | The CANTAB lookup of a subject whose turn does not raise. |
| ResearchLoader.ServedSlots | research/data_classes/data_loader.py:37-43 | After the CANTAB pass, a served subject's `cantab` slot is its lookup. |
| ResearchLoader.ServeOne | research/data_classes/data_loader.py:42-43 | Serving a subject leaves it with exactly its lookup. |
| ResearchLoader.FirstFailing | research/data_classes/data_loader.py:37-41 | The first subject whose turn raises, where the pass stops. |
| ResearchLoader.FailingHere | research/data_classes/data_loader.py:37-41 | A subject whose turn raises, at or before the stop, is the stop. |
| ResearchLoader.NotFailingYet | research/data_classes/data_loader.py:37-41 | A subject whose turn does not raise, at or before the stop, is before it. |
| ResearchLoader.SameFailing | research/data_classes/data_loader.py:37-41 | Only the name ids and the dates of birth decide where the pass stops. |
| ResearchLoader.AttachedKeepsFailing | research/data_classes/data_loader.py:20-21 | Attaching the matrices changes neither where the CANTAB pass stops nor the exception it raises there. |
| ResearchLoader.DataLoader.Init | research/data_classes/data_loader.py:14-19 | Stores the collaborators. |
| ResearchLoader.DataLoader.GetSubjectById | research/data_classes/data_loader.py:23-26 | The first registered subject with that id, or `None`. |
| ResearchLoader.DataLoader.AddCorticalLayersResults | research/data_classes/data_loader.py:28-35 | Each matrix goes into its subject's `pbr` slot, so the last one of an id wins. A matrix of an unknown id raises `ValueError` after the earlier ones are attached. |
| ResearchLoader.DataLoader.AddCantabResults | research/data_classes/data_loader.py:37-43 | Each subject, in order, gets its lookup in its `cantab` slot. The first subject whose turn raises stops the pass with that `Failure`. |
| ResearchLoader.DataLoader.Turn | research/data_classes/data_loader.py:38-41 | A subject's turn up to `add_data`: its `Failure`, or the lookup's results when nothing is raised. |
| ResearchLoader.DataLoader.AttachTo | research/data_classes/data_loader.py:31-33 | `add_data('pbr', pbr)` on the subject that was found. |
| ResearchLoader.DataLoader.ServeAt | research/data_classes/data_loader.py:39-43 | `add_data('cantab', results)` on one subject. |
| ResearchLoader.DataLoader.Create | research/data_classes/data_loader.py:14-21 | The matrices are attached, then the CANTAB results. An unknown matrix id raises `ValueError`; otherwise the first failing subject's exception is raised. |
| ResearchDao.Pbrs | research/dao.py:41-42 | The matrix of every subject that has one, in subject order, and nothing else. |
| ResearchDao.PbrsValid | research/dao.py:41-42 | Valid subjects hold valid matrices. |
| ResearchDao.SubjectResultsSet | research/dao.py:62-68 | A known subject with a matrix gives its class maps; a known subject without one gives `None`. |
| ResearchDao.AsCandidate | research/dao.py:44-71 | What `get_results_set` returns, as a value for `results_set`. |
| ResearchDao.ValidateResultsSet | research/dao.py:73-89 | Accepts `None` or an empty value at once. Otherwise it requires a list of probability maps of length 6, or raises `AssertionError`. An object without a length raises `TypeError`. |
| ResearchDao.SubjectResultsSetAccepted | research/dao.py:62-89 | Every results set computed for a subject id is accepted. |
| ResearchDao.LoadedMeanMapsAccepted | research/dao.py:55-89 | Mean maps read back are accepted only when there are 6 of them. |
| ResearchDao.SliceOf | research/dao.py:104 | `results_set[c].create_slice(plane, i)`. No results set is `TypeError`, a bad index is `IndexError`, and otherwise the result is the map's own `create_slice`. |
| ResearchDao.DataAccessObject.constructor | research/dao.py:18-26 | Gathers and keeps the matrices and hands them to a new analysis. |
| ResearchDao.DataAccessObject.GetPbrs | research/dao.py:130-134 | Gathered on first use and then kept, even if the subjects change. |
| ResearchDao.DataAccessObject.GetResultsSet | research/dao.py:44-71 | "mean" gives the analysis's mean maps: the kept list without touching the disk, else the `FreshMeanMaps` outcome. Maps it returns, and maps created before a `FileExistsError`, are then kept by the analysis, so a later "mean" lookup reads no file. A known subject gives its maps or `None`; an unknown id gives `None`. The analysis's matrices and deviation never change. |
| ResearchDao.DataAccessObject.SetResultsSet | research/dao.py:125-128 | A value is stored only after it validates; otherwise the error is raised and nothing changes. |
| ResearchDao.DataAccessObject.SetChosenSubject | research/dao.py:116-119 | A subject is stored; anything else is ignored silently. |
| ResearchDao.DataAccessObject.GetSlice | research/dao.py:91-104 | `SliceOf` on the stored results set. |
| ResearchDao.KeptIsAcceptable | research/dao.py:125-128 | A stored results set is always one that validates. |
| ResearchDao.SubjectSlice | research/dao.py:91-104 | The slice of class c of a subject's results set is the slice of that class's map. |
| AppDao.LoadSubject | app/dao.py:48-56 | The base name must split into exactly three fields (otherwise `ValueError`). The id is field 1 + field 2, and the matrix is the file's `results` variable. |
| AppDao.FirstFailure | app/dao.py:47-59 | The position of the first raw file that cannot be read, or the file count. |
| AppDao.RawFileNameSplit | app/dao.py:51 | A raw file named `name_date_rest` splits back into those three fields. |
| AppDao.WellNamedRawFile | app/dao.py:51-56 | A well-named raw file gives the subject `name + date` with its `results` matrix. |
| AppDao.NameFromRawFile | app/dao.py:51-54 | For a 4-character name, the subject's `name` and `scan_date` are the file's two fields. |
| AppDao.FirstWithId | app/dao.py:70-73 | The first subject with the id, if any. |
| AppDao.MatrixList | app/dao.py:91 | A list of brain matrices as a results-set value. |
| AppDao.MeansCandidate | app/dao.py:86 | The summary's means as a results-set value: `None`, or a list. |
| AppDao.ValidateResultsSet | app/dao.py:97-108 | `None` or a non-iterable raises `TypeError`. Anything but a list of 6 brain matrices raises `AssertionError`. |
| AppDao.ItemAt | app/dao.py:119 | `results_set[c]`: `TypeError` when it cannot be subscripted, `IndexError` out of range; negative indices count from the end. |
| AppDao.SliceOf | app/dao.py:121-134 | As intended: the element's own `get_slice`. An element without that method is `AttributeError`. |
| AppDao.SliceAsWritten | app/dao.py:134 | As written, every subscriptable element fails with `AttributeError`. |
| AppDao.DataAccessObject.constructor | app/dao.py:14-18 | No subjects and no results set. |
| AppDao.DataAccessObject.LoadSubjectsData | app/dao.py:43-59 | Over the sorted raw files, one subject per file until a file cannot be read, whose error is raised. The results set is unchanged. |
| AppDao.DataAccessObject.Create | app/dao.py:20-21 | An object is produced iff every raw file can be read, with one subject per file in sorted order. |
| AppDao.DataAccessObject.GetSubjectById | app/dao.py:61-73 | The first subject with that id, or `None`. |
| AppDao.DataAccessObject.GetResultsSet | app/dao.py:75-95 | "mean" gives the summary's means, a known id gives its subject's maps, and anything else gives `[]`. |
| AppDao.DataAccessObject.ResultsSet | app/dao.py:146-157 | A falsy stored value is first replaced by the summary's means. |
| AppDao.DataAccessObject.SetResultsSet | app/dao.py:159-169 | A value is stored only after it validates; otherwise the error is raised. |
| AppDao.DataAccessObject.GetClassBrainMatrix | app/dao.py:110-119 | The element of the results set that the getter returns. |
| AppDao.DataAccessObject.GetSlice | app/dao.py:121-134 | `SliceOf` on the results set that the getter returns, through the brain matrix's `get_slice` (the corrected call of the Findings). |
| AppDao.MeansWellShaped | app/dao.py:154-157 | The summary's means read from a disk of rectangular arrays are well shaped. |
| AppDao.SubjectMapsWellShaped | app/dao.py:89-91 | A subject's maps read from disk are well shaped. |
| AppDao.SubjectResultsSetAccepted | app/dao.py:89-108 | The maps a known subject gives always validate. |
| AppDao.UnknownResultsSetRejected | app/dao.py:93-108 | The `[]` for an unknown id fails validation with `AssertionError`. |
| AppDao.MeansAccepted | app/dao.py:84-108 | The means validate iff every class's mean map is stored. Without the AAL files they are `None`, and validating them raises `TypeError`. |
| AppDao.AcceptedIsKept | app/dao.py:154-168 | A value the getter or the setter stores is never falsy, so it is kept until replaced. |
| AppDao.SubjectSlice | app/dao.py:121-134 | The intended slice of class c of a subject's results set is the cut of that class's saved map; as written, the call fails. |
| AppDao.CreateSliceMissing | app/dao.py:134 | For a non-empty map, sagittal slice 0 exists, yet `get_slice` as written raises `AttributeError`. |

## Left out

- The matrix `save()` at cortical_layers/helpers/cortical_layers/probability_by_region_matrix.py:68-80 is not modelled. It makes a directory and then sets `path` to it, so it cannot succeed.
- The layers matrix's `default_path`, `saved` and `save_class_probability_map` are not separate members. The last is inlined into `SaveAllClassProbabilityMaps`, whose parent directory always exists.
- The helpers matrix's `save`, `get_data` and `save_all_class_probability_maps` are not modelled. They are one-line `np.save` and getter wrappers.
- `HelperPbr.ProbabilityByRegionMatrix.Create`: it uses the corrected array test of the Findings. The constructor as written is `HelperPbr.InitSourceAsWritten`.
- The research package's matrix class is not part of this model. Only what its callers use is modelled: its subject id, its data, and its class maps through the shift-aware research atlas.
- cortical_layers/helpers/cortical_layers/brain_atlas.py is not part of this model. The layers matrix converts through the unshifted helpers atlas.
- Atlas templates are given as values; the lazy `nib.load` of `template` is not modelled, because it is I/O.
- File I/O is a disk value: a map from paths to contents plus a set of directories.
  - `glob` listings, `loadmat`, `np.load`, `np.save`, `os.makedirs` and `pd.read_csv`/`pd.read_excel` become parameters or operations on that value.
  - The disk holds typed contents, so numpy's loading of an array of any rank is not modelled. A `.npy` file whose array is not the kind the caller expects counts as missing in the readers that check only existence. In the three loaders below it is refused with `ValueError` at load, where numpy loads it and fails later or not at all.
  - `os.makedirs` is modelled only for the single mean directory; parent directories are not tracked.
- `LayersAnalysis.FromFile`: a file that is not a 4-D array gives `ValueError`. cortical_layers/analysis.py:51 loads such an array without error, and the later `[..., c]` cut raises `IndexError` instead.
- `ResearchAnalysis.LoadedMaps`: a class file that is not a 3-D array gives `ValueError`. research/data_classes/cortical_layers/analysis.py:67 loads any array, and the probability map stores it unchecked.
- `LayersPbr.ReadOutcome`: a `.npy` file that is not a matrix gives `ValueError`. cortical_layers/helpers/cortical_layers/probability_by_region_matrix.py:54 loads any array, and the data setter checks only `shape[1]`. So a 3-D array with `shape[1] == 6` is accepted there, and a 1-D array raises `IndexError`.
- Printing is left out: `print` progress messages and the `check_n_regions` warning. The warning has no effect on the result.
- `LayersAnalysis.CorticalLayersAnalysis.GetClassMeanOverAal`: it uses the corrected cache test of the Findings (`is not None`). As written, cortical_layers/analysis.py:24 raises `ValueError` for any cached volume of two or more voxels; that is `LayersAnalysis.KeptVolumeRejected`.
- `LayersAnalysis.CorticalLayersAnalysis.GetAllClassMeansOverAal`: it calls `GetClassMeanOverAal`, so it uses the same corrected cache test.
- `AppDao.DataAccessObject.GetSlice`: it uses the corrected call of the Findings (`get_slice`). As written, app/dao.py:134 calls `create_slice` and raises `AttributeError`; that is `AppDao.CreateSliceMissing`.
- The CANTAB rows carry no column list. An empty table therefore has every column, and querying it is not a `KeyError`.
- `LayersAnalysis.CorticalLayersAnalysis.constructor`: it requires at least one subject. numpy's NaN mean over an empty subject axis is not modelled.
- Probabilities are real numbers, not IEEE doubles. The square root is a function parameter.
- Python quirks are modelled as intended:
  - `is`/`is not` on integers is treated as `==`/`!=`, at cortical_layers/helpers/cortical_layers/probability_by_region_matrix.py:95, research/data_classes/subject.py:33, research/dao.py:81, app/dao.py:107, and `len(...) is 0` at research/data_classes/cantab/row_by_session.py:26 and :28.
  - `str.isdigit` and `str.lower` are restricted to ASCII.
  - `zfill` is modelled for unsigned text.
- The dashboards and their UI are left out because they are widgets: app/main.py, the bokeh `DataViewer`, `ColumnDataSource`/`Div` builders, and the min/max/mean/std/round slice statistics.
- The pandas wrappers are thin library calls: `fix_column_names`, `fix_index_values`, `parse_sheet`, `read_from_path` and the xlsx parser modules.
- `get_scores`, `get_neo_scores` and `get_subject_attributes_df` of research/dao.py are pandas frames built from measurement objects, which are not part of this model.
- The module-level `data_loader` of research/dao.py is the DAO's `loader` field: `get_subject_by_id` asks it, and its subjects need not be the DAO's own `subjects`.
- `Equals` of the three subject classes compares ids only. It is a plain predicate, and the registry lemmas are stated by id.
- The app DAO's `summary` is built once, at class definition, so the model takes it as a given value.
- The app DAO's `__init__` is split into `constructor` (the empty object) and `Create` (which loads the subjects), because loading can raise.
- The app DAO's `get_raw_data_paths` is the `glob` listing, passed in as a parameter.
- `AppDao.DataAccessObject.ResultsSet` returns the means computed from the current disk; the summary's own `mean_pbr` is not used by any modelled operation.
- Configuration modules, data loaders and the cortical layers results collection are import-time plumbing: cfg.py, data_loader.py, dao.py of the helpers package, cortical_layers_results.py and subjects_loader.py.
- `LayersAnalysis.CorticalLayersAnalysis.AllClassMeansOverAal` inlines the nested `save_all_class_means_over_aal` call, which reads the volume just cached.

## Findings

| source | as written | input that shows it | evidently intended | confidence | as-written member | corrected member |
|---|---|---|---|---|---|---|
| cortical_layers/helpers/probability_by_region_matrix.py:23 | `elif from_array:` takes the truth value of the array | any matrix with one row and six columns, or larger: its truth test raises `ValueError` | `elif from_array is not None:` | not executed | HelperPbr.ArrayInputRejected | HelperPbr.InitSourceAgrees |
| cortical_layers/data_viewer.py:36 | the slice slider ends at `aal_1000.shape[2]`, while the coronal cut indexes axis 1 (:43, :72) | a template of shape 2 x 2 x 3: slider value 3 cuts index 2 of an axis of length 2 | the slider ends at `shape[1]` | not executed | ViewerSlices.SliderEndOverrunsCoronalAxis | ViewerSlices.SliderCoversCoronalAxis |
| cortical_layers/analysis.py:24 | `if self._all_class_means_over_aal:` takes the truth value of the cached array | any cached volume of two or more voxels: the test raises `ValueError` | `if self._all_class_means_over_aal is not None:` | not executed | LayersAnalysis.KeptVolumeRejected | LayersAnalysis.KeptAgreesWithComputed |
| app/dao.py:134 | `get_slice` calls `create_slice`, which app/brain_matrix.py does not define (its method is `get_slice`, app/brain_matrix.py:22) | a subject whose class-0 map is a non-empty volume: the sagittal slice 0 raises `AttributeError` | `.get_slice(plane, i_slice)` | not executed | AppDao.CreateSliceMissing | AppDao.SubjectSlice |
