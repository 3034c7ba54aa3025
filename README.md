# COCO annotation utilities, modelled in Dafny

This project models four small Python scripts that rewrite COCO-style annotation files in memory:

- **`generate_labels.py`** converts a COCO annotation file into YOLO segmentation labels. It covers:
  - a table from image id to file name and size;
  - a map from category id to a contiguous class index;
  - per annotation, validation and a dispatch on the segmentation shape (RLE mask, flat polygon, list of polygons);
  - normalisation of coordinates by the image's width and height;
  - the label entries per image and the rewritten annotation list;
  - the output file names.
- **`merge_COCO_dataset.py`** merges into a target file the source images whose `(height, width, file_name)` fingerprint the target lacks, together with their annotations. It returns statistics.
- **`split_COCO_dataset.py`** splits a dataset by category:
  - it groups the annotations by category and shuffles each group;
  - it cuts each group at `int(len * train_ratio)` into a train part and a val part;
  - it gives each part one image record per distinct image id referenced.
- **`make_image_list.py`** collects the values of one key from a JSON document in document order and writes one manifest line per value.

Modules:

- `Wrappers`: `Option` and `Result`.
- `Coco`: the records the scripts read: image, annotation, category, dataset and segmentation shapes. A field a record may lack is an `Option`.
- `PosixPath`: `os.path.join`, `basename` and `splitext`.
- `Seqs`: an order-preserving filter and first-occurrence de-duplication.
- One module per script: `GenerateLabels`, `MergeDataset`, `SplitDataset`, `MakeImageList`.

The imperative scripts' loops are methods with loop invariants, each proved equal to a specification function. The recursive search of `make_image_list.py` is written as recursive functions. The lemmas state what the scripts promise about those functions.

Foreign and nondeterministic steps become parameters:

- `ContourFinder` stands for RLE decoding, contour extraction and simplification (pycocotools and OpenCV). It maps a mask and the image size to a flattened pixel contour, or to `None` when there is none.
- `Shuffle` stands for `random.shuffle`. It maps a group's position and contents to a permutation of it.
- The train ratio is the fraction `num / den`.

An exception becomes an `Err` value naming it. A skipped annotation is recorded in a returned skip log instead of being printed.

## Model

| member | source | states |
|---|---|---|
| GenerateLabels.NormalizeCoords | generate_labels.py:178-181 | the index-stepping loop computes `Normalized`: the normalised list, or the ZeroDivisionError or IndexError the loop raises first |
| GenerateLabels.ScaledAppend | generate_labels.py:179-181 | one loop step appends `x / width` and then `y / height` to the list built so far |
| GenerateLabels.NormalizedSucceeds | generate_labels.py:51-53 | normalisation succeeds exactly when the list is empty, or when it has even length and a non-zero width and height |
| GenerateLabels.NormalizedPairs | generate_labels.py:51-53 | a successful normalisation keeps the length and pair order: `out[2k] = p[2k]/width`, `out[2k+1] = p[2k+1]/height` |
| GenerateLabels.NormalizedRoundTrip | generate_labels.py:178-181 | multiplying back by width and height recovers the input coordinates |
| GenerateLabels.NormalizeBox | generate_labels.py:57-69 | `normalize_bb` succeeds exactly for a four-element box and non-zero width and height; otherwise it reports the unpacking `ValueError` (wrong length) or the `ZeroDivisionError`; a result has four values |
| GenerateLabels.NormalizeBoxCentre | generate_labels.py:57-69 | `normalize_bb` of a four-number box and non-zero sizes is `[(x+w/2)/W, (y+h/2)/H, w/W, h/H]` |
| GenerateLabels.NormalizeBoxRoundTrip | generate_labels.py:57-69 | a successful box normalisation takes four numbers to four, and the box is recovered from centre and extent |
| GenerateLabels.CentreBack | generate_labels.py:60-66 | the centre `(lo + (lo + extent)) / 2 / d` minus half the extent, times `d`, is `lo` again |
| GenerateLabels.NormalizeBoxInUnitSquare | generate_labels.py:57-69 | a box inside the image normalises to four values in `[0, 1]` |
| GenerateLabels.DivideIntoUnit | generate_labels.py:64-67 | a value between 0 and a positive size, divided by that size, lies in `[0, 1]` |
| GenerateLabels.LongestIndex | generate_labels.py:170-173 | the chosen sub-polygon has maximal length, and every earlier one is strictly shorter (Python `max` keeps the first maximum) |
| GenerateLabels.RleToYoloPolygon | generate_labels.py:27-55 | the contour step and the normalisation loop compute `RlePolygon`: `None` without a contour, else the normalised and raw contour |
| GenerateLabels.NoContourRaisesAsWritten | generate_labels.py:35-36 | as written, a mask without a contour returns a bare empty list, and unpacking it into two names raises |
| GenerateLabels.SkipOnlyForEmptyContourAsWritten | generate_labels.py:149-154 | as written, once a pair is returned, the skip test `not yolo_polygon` holds exactly when the contour is empty |
| GenerateLabels.ImageTableSucceeds | generate_labels.py:93-99 | the image table is built exactly when every image has `id`, `file_name`, `width` and `height` |
| GenerateLabels.ImageTableKeys | generate_labels.py:93-99 | the table's keys are exactly the image ids |
| GenerateLabels.ImageTableLastWins | generate_labels.py:94-95 | the entry for an id is the last image carrying it |
| GenerateLabels.BuildImageTable | generate_labels.py:93-99 | the loop computes `ImageTable`, stopping at the first incomplete image |
| GenerateLabels.ImageTableStaysFailed | generate_labels.py:94-98 | once an image raises, later images do not change the outcome |
| GenerateLabels.DeclaredMapping | generate_labels.py:104 | definition of the comprehension over `enumerate(categories)`; what it maps is stated by `DeclaredMappingLast` and `DeclaredMappingPositions` |
| GenerateLabels.DeclaredMappingLast | generate_labels.py:102-104 | every declared id is mapped to the position of the last category carrying it |
| GenerateLabels.DeclaredMappingPositions | generate_labels.py:104 | with distinct declared ids, each id maps to its position in the list |
| GenerateLabels.CollectCategoryIds | generate_labels.py:109-112 | the loop collects exactly the category ids that annotations carry |
| GenerateLabels.SortedMapping | generate_labels.py:113 | the sorted mapping's keys are exactly the referenced ids |
| GenerateLabels.RankBelowSize | generate_labels.py:113 | every index is below the number of distinct ids |
| GenerateLabels.RankIncreasing | generate_labels.py:113 | smaller ids get smaller indices |
| GenerateLabels.RankOnto | generate_labels.py:113 | every index below the number of ids is the index of some id |
| GenerateLabels.SortedMappingBijective | generate_labels.py:109-113 | without declared categories, the mapping is an order-preserving bijection from the referenced ids onto `0..k-1` |
| GenerateLabels.CategoryMapping | generate_labels.py:102-113 | the mapping fails, with the `KeyError` of `cat['id']`, exactly when the file declares categories and one of them has no id; without declared categories its keys are exactly the category ids the annotations carry |
| GenerateLabels.SortedMappingCoversReferenced | generate_labels.py:105-113 | without declared categories, every referenced category id has a class index |
| GenerateLabels.Classify | generate_labels.py:122-190 | definition of one loop iteration's outcome (dropped, failed, keyed and skipped, or accepted), with the no-contour case skipped as intended; its meaning is stated by `DroppedExactly`, `AcceptedRewrite`, `NoContourIsSkipped` and `ScalarSegmentationRaises` |
| GenerateLabels.DroppedExactly | generate_labels.py:122-133 | an annotation is dropped exactly when a required field is missing or its image is unknown; it is reported as missing fields exactly in the first case |
| GenerateLabels.AcceptedRewrite | generate_labels.py:142-187 | an accepted annotation carries the class index of its category and the normalised polygon; an RLE annotation is copied with `segmentation := [raw]`, a polygon annotation is kept unchanged, and the longest sub-polygon is the one normalised |
| GenerateLabels.NoContourIsSkipped | generate_labels.py:147-154 | a mask without a contour keys its image and is skipped, as the comment at line 151 intends |
| GenerateLabels.ScalarSegmentationRaises | generate_labels.py:147 | a valid annotation of a known image and category whose segmentation is a number, a boolean or null raises the `TypeError` of the `'counts' in` test |
| GenerateLabels.ClassifyAsWritten | generate_labels.py:147-154 | the loop body as written: an RLE mask without a contour raises the `ValueError` of unpacking the bare `[]`; every other annotation has the outcome `Classify` gives |
| GenerateLabels.NoContourAbortsAsWritten | generate_labels.py:147-154 | the written and the intended loop bodies differ exactly on an RLE mask without a contour, where the written one raises and the intended one keys the image and skips |
| GenerateLabels.FirstFailureIsFirst | generate_labels.py:120-190 | the reported exception is the first annotation's that raises; there is none exactly when no annotation raises |
| GenerateLabels.FirstFailureStays | generate_labels.py:120-190 | once an annotation raises, later annotations do not change the outcome |
| GenerateLabels.NewAnnotationsAppend | generate_labels.py:160-187 | the rewritten list of a concatenation is the concatenation of the rewritten lists, so input order is kept |
| GenerateLabels.LabelsOfAppend | generate_labels.py:157-184 | an image's label entries follow annotation order |
| GenerateLabels.LabelKeysAppend | generate_labels.py:139-140 | the keyed images of a concatenation are the union of those of its parts |
| GenerateLabels.FirstFailureAppend | generate_labels.py:120-190 | the first exception of a concatenation is the first part's, if any, else the second part's |
| GenerateLabels.DroppedContributesNothing | generate_labels.py:122-133 | removing a dropped annotation changes no output: rewritten list, keyed images, label entries and exception |
| GenerateLabels.Record | generate_labels.py:139-184 | an accepted outcome sets the image's entry to its previous entry, or `[]` when there was none, with the label appended; a keyed-then-skipped outcome sets a missing entry to `[]` and leaves an existing one as it is; the other outcomes leave the map unchanged |
| GenerateLabels.LabelKeysInTable | generate_labels.py:130-140 | every keyed image is in the image table, so the lookup at line 195 finds it |
| GenerateLabels.LabelsOfUnkeyed | generate_labels.py:139-140 | an image that was never keyed has no labels |
| GenerateLabels.FoldStep | generate_labels.py:120-190 | one loop iteration extends the rewritten list, the skip log, the label map and the first exception as the outcome of that annotation says |
| GenerateLabels.ProcessAnnotations | generate_labels.py:116-190 | the annotation loop returns the first exception, or else the rewritten list, the label map and the skip log |
| GenerateLabels.Step | generate_labels.py:122-190 | one iteration of the loop body computes `Classify` |
| GenerateLabels.PolygonOutcome | generate_labels.py:178-187 | the polygon branch normalises the points and keeps the annotation |
| GenerateLabels.PolygonJsonPathName | generate_labels.py:216-218 | the output file is named `stem + "_polygon" + ext` after the input's basename, and splitting it again gives `(stem + "_polygon", ext)` |
| GenerateLabels.LabelFilePathName | generate_labels.py:197-200 | the label file of a plain image file name is named after the file's stem, with `.txt` |
| GenerateLabels.Convert | generate_labels.py:92-231 | definition of one run on loaded data: image table, category mapping, annotation loop and output name, or the first exception; its outcome is stated by `ConvertOutcome` |
| GenerateLabels.ConvertOutcome | generate_labels.py:92-231 | a run succeeds exactly when the image table and the category mapping are built and no annotation raises; it then keeps images and categories, replaces the annotations by the rewritten list, gives every keyed image (all in the image table) its labels in annotation order, logs the skips, and names the output after the input |
| GenerateLabels.ConvertJsonToYoloLabels | generate_labels.py:92-231 | the run computes `Convert`: image table, category mapping, annotation loop and output name, or the first exception |
| MergeDataset.FingerprintOf | merge_COCO_dataset.py:28-29 | the fingerprint is `(height, width, file_name)`, with `None` for a missing field |
| MergeDataset.FingerprintsMembers | merge_COCO_dataset.py:25-30 | the target fingerprint set holds exactly the target images' fingerprints |
| MergeDataset.NewImagesExactly | merge_COCO_dataset.py:37-45 | the new images are exactly the source images whose fingerprint the target lacks; each keeps its multiplicity, so source duplicates stay |
| MergeDataset.NewImagesInOrder | merge_COCO_dataset.py:37-45 | selection distributes over concatenation, so source order is kept |
| MergeDataset.IdsOfMembers | merge_COCO_dataset.py:43-44 | the tracked id set holds exactly the ids the new images carry |
| MergeDataset.IdsOfHas | merge_COCO_dataset.py:43-44 | a new image's id is tracked |
| MergeDataset.IdsOfNone | merge_COCO_dataset.py:43-53 | when no new image has an id, the tracked set is empty |
| MergeDataset.AnnotationsById | merge_COCO_dataset.py:53-57 | when some new image has an id, the new annotations are the order-preserving filter of the source annotations by that id set |
| MergeDataset.AnnotationsByIdExactly | merge_COCO_dataset.py:53-57 | in that case an annotation is selected exactly when its `image_id` is a new image's id, with its source multiplicity |
| MergeDataset.AnnotationsByPosition | merge_COCO_dataset.py:58-61 | otherwise the new annotations are the first `min(len(new_images), len(annotations))` source annotations |
| MergeDataset.MergeAppends | merge_COCO_dataset.py:64-79 | the target lists are an unchanged prefix of the merged lists, followed by the new images and annotations; categories are kept; the totals are the old lengths plus the added counts |
| MergeDataset.Merge | merge_COCO_dataset.py:4-79 | definition of the merge and its statistics; what it keeps and adds is stated by `MergeAppends`, `NewImagesExactly`, `AnnotationsById` and `AnnotationsByPosition` |
| MergeDataset.MergeAnnotationFiles | merge_COCO_dataset.py:4-79 | the three loops, the append and the statistics compute `Merge` |
| MergeDataset.DuplicateImageScenario | merge_COCO_dataset.py:37-79 | a source image matching a target fingerprint is skipped by fingerprint even under another id, and only the annotation of the new image is added |
| MergeDataset.OnlyCIsNew | merge_COCO_dataset.py:37-45 | of two source images, the one whose fingerprint the target holds is not new |
| MergeDataset.OnlyAnnCIsNew | merge_COCO_dataset.py:53-57 | only the annotation referencing the new image's id is selected |
| SplitDataset.ImageTableIds | split_COCO_dataset.py:34 | each table entry is an input image carrying that id, and every image id is a key |
| SplitDataset.BuildImageTable | split_COCO_dataset.py:34-35 | the two comprehensions compute `TableOf`: a `KeyError` on the first missing `id`, then on the first missing `file_name`, else the table |
| SplitDataset.CategoryIdsMembers | split_COCO_dataset.py:38-40 | the category list holds exactly the category ids the annotations carry |
| SplitDataset.GroupByCategory | split_COCO_dataset.py:38-40 | the grouping loop gives the categories in first-occurrence order and each category's annotations in input order, or a `KeyError` when some annotation has no `category_id` |
| SplitDataset.GroupFoldIsGrouping | split_COCO_dataset.py:38-40 | the defaultdict fold equals the reference grouping, a filter per category |
| SplitDataset.GroupingStep | split_COCO_dataset.py:39-40 | one append creates the category's list when missing and appends the annotation |
| SplitDataset.CategoryOrderStep | split_COCO_dataset.py:39-40 | a new category joins the key order at the end; a known one leaves it unchanged |
| SplitDataset.GroupsStep | split_COCO_dataset.py:39-40 | the groups after one more annotation are the groups before it with that annotation appended to its category |
| SplitDataset.GroupsKeysStep | split_COCO_dataset.py:39-40 | one more annotation adds its category to the keys and nothing else |
| SplitDataset.GroupAppend | split_COCO_dataset.py:40 | a category's group grows by the annotation exactly when the annotation is in that category |
| SplitDataset.GroupEmpty | split_COCO_dataset.py:38-40 | a category no annotation carries has an empty group |
| SplitDataset.TruncDiv | split_COCO_dataset.py:45 | definition of `int()` applied to an exact quotient; its bounds are stated by `TruncDivBounds` |
| SplitDataset.TruncDivBounds | split_COCO_dataset.py:45 | `int()` of a quotient truncates toward zero |
| SplitDataset.Cut | split_COCO_dataset.py:45-47 | the cut lies within the group, after Python's clamping of slice indices |
| SplitDataset.CutOfFraction | split_COCO_dataset.py:45 | for a ratio in `[0, 1]` the cut is `floor(n * ratio)` |
| SplitDataset.CutTenAtEightyPercent | split_COCO_dataset.py:45 | at the default ratio 0.8, a group of ten is cut after eight |
| SplitDataset.PartStep | split_COCO_dataset.py:43-50 | one more category extends train by the head of its shuffled group and val by the rest |
| SplitDataset.SplitGroups | split_COCO_dataset.py:43-50 | the split loop computes the train and val parts: the concatenation, in category order, of each shuffled group's head and tail |
| SplitDataset.ImageIdsMembers | split_COCO_dataset.py:53-54 | the id list holds exactly the image ids the annotations carry |
| SplitDataset.CollectImageIds | split_COCO_dataset.py:53-54 | the id-set comprehension gives the distinct image ids in first-occurrence order, or a `KeyError` when some annotation has no `image_id` |
| SplitDataset.ImagesForSpec | split_COCO_dataset.py:56-62 | the image lookup succeeds exactly when every id is in the table, and then gives the table's record for each id, in order |
| SplitDataset.CollectImages | split_COCO_dataset.py:56-57 | the image loop computes `ImagesFor` |
| SplitDataset.ImagesForStays | split_COCO_dataset.py:56-57 | once an id is missing, later ids do not change the outcome |
| SplitDataset.Split | split_COCO_dataset.py:7-62 | definition of one run on loaded data, or the first `KeyError`; what the parts hold is stated by `SplitShape`, `SplitIsPermutation`, `PartOfCategory` and `SplitImages` |
| SplitDataset.SplitCocoDatasetByCategory | split_COCO_dataset.py:7-62 | the run computes `Split`: grouping, per-category cut, image ids and images, or the first `KeyError` |
| SplitDataset.GroupsConcatCount | split_COCO_dataset.py:38-40 | the concatenated groups of distinct categories hold each annotation of those categories as often as the input does, and no other |
| SplitDataset.CategoryInOrder | split_COCO_dataset.py:38-40 | every annotation's category is in the key order |
| SplitDataset.GroupOfEach | split_COCO_dataset.py:38-40 | an annotation is in exactly one group, that of its category |
| SplitDataset.GroupsPartition | split_COCO_dataset.py:38-40 | the groups together are a permutation of the annotations |
| SplitDataset.PartsCount | split_COCO_dataset.py:43-50 | each annotation occurs in train and val together as often as in the groups |
| SplitDataset.PiecesCount | split_COCO_dataset.py:46-47 | the head and tail of a shuffled group together hold each annotation as often as the group |
| SplitDataset.SplitIsPermutation | split_COCO_dataset.py:43-50 | train followed by val is a permutation of the input annotations: nothing is lost or duplicated |
| SplitDataset.ShuffledCategory | split_COCO_dataset.py:44 | a shuffled group holds only annotations of its category |
| SplitDataset.PieceCategory | split_COCO_dataset.py:46-47 | both pieces of a group hold only annotations of its category |
| SplitDataset.PartOfCategory | split_COCO_dataset.py:44-50 | the train (val) annotations of a category are exactly the first `split_idx` (the remaining) elements of its shuffled group |
| SplitDataset.PartOfOtherCategory | split_COCO_dataset.py:43-50 | a category with no group contributes nothing to either part |
| SplitDataset.TwoCategoriesOfTen | split_COCO_dataset.py:43-50 | two categories of ten at ratio 0.8 give 16 train and 4 val annotations, 8 and 2 per category |
| SplitDataset.ImageIdIn | split_COCO_dataset.py:53-54 | an annotation's image id is among the collected ids |
| SplitDataset.ImagesCarryIds | split_COCO_dataset.py:56-57 | the looked-up image for each id carries that id |
| SplitDataset.ImageIdSource | split_COCO_dataset.py:53-54 | each collected id comes from some annotation |
| SplitDataset.ImagesOfPart | split_COCO_dataset.py:53-57 | a part's image list has exactly one record per distinct image id among its annotations |
| SplitDataset.SplitShape | split_COCO_dataset.py:22-62 | a successful run gives each side its part of the annotations, the images of its distinct image ids, and the input categories |
| SplitDataset.ImagesFromInput | split_COCO_dataset.py:34-62 | every image of a part is an input image record |
| SplitDataset.SplitImages | split_COCO_dataset.py:22-62 | each output holds one image per distinct image id of its annotations, only input images, and the input categories unchanged |
| MakeImageList.ExtractImageNames | make_image_list.py:6-29 | definition of `extract_image_names`, branch by branch; its meaning is stated by `ExtractIsCollect`, `ExtractSound` and `ExtractBound` |
| MakeImageList.FromList | make_image_list.py:10-19 | definition of the list branch's loop over items |
| MakeImageList.FromListItem | make_image_list.py:12-19 | definition of one item of the list branch: a dict with the key gives its value, a dict without it or a list is searched, anything else gives nothing |
| MakeImageList.FromDict | make_image_list.py:20-27 | definition of the dict branch: the value under the key, or else the search of the values |
| MakeImageList.FromValues | make_image_list.py:24-27 | definition of the loop over a dict's values, searching only dicts and lists |
| MakeImageList.ExtractIsCollect | make_image_list.py:6-29 | the script's branches compute plain structural recursion: the list branch's special case for dicts changes nothing |
| MakeImageList.DictWithKey | make_image_list.py:20-22 | a dict holding the key yields exactly `[value]` and is not searched further |
| MakeImageList.FromValuesAppend | make_image_list.py:24-27 | the search of a dict's values distributes over concatenation |
| MakeImageList.DictWithoutKey | make_image_list.py:23-27 | a dict without the key yields the concatenation, in value order, of what its parts yield |
| MakeImageList.ListOfOneDict | make_image_list.py:10-17 | a one-element list around a dict yields what the dict yields |
| MakeImageList.ScalarYieldsNothing | make_image_list.py:6-29 | a scalar document yields nothing |
| MakeImageList.ExtractBound | make_image_list.py:6-29 | the result is never longer than the number of dicts in the document |
| MakeImageList.ExtractSound | make_image_list.py:6-29 | every extracted value is stored under the key somewhere, and a document without the key yields nothing |
| MakeImageList.InputFileName | make_image_list.py:47 | the input file name is `"medtool_" + json_tag + "_anns.json"` |
| MakeImageList.ManifestFileName | make_image_list.py:50 | the manifest name is `output_tag + "_medvision.txt"` |
| MakeImageList.ManifestFileNameInjective | make_image_list.py:50 | different output tags give different manifest names |
| MakeImageList.ManifestLine | make_image_list.py:70-71 | definition of one manifest line; its shape is stated by `ManifestLineShape` |
| MakeImageList.ManifestLineShape | make_image_list.py:70-71 | with ordinary relative components a line is `output_dir/images/output_tag/name` and a newline |
| MakeImageList.LinesElements | make_image_list.py:68-71 | there is one line per name, and line `k` is the path of name `k` |
| MakeImageList.WriteManifest | make_image_list.py:68-80 | the write loop writes the lines of the names in order; it completes exactly when every name is a string, else it stops at the first non-string |
| PosixPath.Basename | generate_labels.py:216 | `os.path.basename` is the slash-free suffix of the path that reaches back to its last `/`, or to its start when there is none |
| PosixPath.Splitext | generate_labels.py:217 | `os.path.splitext` splits a path into root and extension; the extension is empty or one dot-led, slash-free, dot-free remainder; it is non-empty exactly when the last `.` comes after the last `/` and some character between them is not a dot |
| PosixPath.Join | make_image_list.py:70 | definition of two-component `os.path.join`; its shape is stated by `PosixPath.JoinParts` |
| PosixPath.JoinParts | make_image_list.py:70 | the joined path ends with the second component; an absolute second component is the whole result; otherwise the first component comes first, followed by one `/` exactly when it is non-empty and does not end in `/` |
| PosixPath.JoinSuffixedName | generate_labels.py:216-218 | joining `root + suffix + ext` (the split of a slash-free name) onto a directory keeps that name as the basename, and splitting it again gives `(root + suffix, ext)` |
| PosixPath.BasenameOfJoin | generate_labels.py:218 | joining a slash-free name onto a directory keeps it as the basename |
| PosixPath.SplitextWithSuffix | generate_labels.py:217-218 | inserting a dot-free suffix between root and extension keeps the extension and extends the root |
| Seqs.FilterMembers | merge_COCO_dataset.py:55-57 | the filter keeps exactly the members that pass |
| Seqs.FilterCount | merge_COCO_dataset.py:55-57 | each passing member is kept as often as it occurs; the others vanish |
| Seqs.FilterAppend | merge_COCO_dataset.py:55-57 | filtering distributes over concatenation, so order is kept |
| Seqs.DedupSpec | split_COCO_dataset.py:53-54 | de-duplication keeps every value, adds none and repeats none |
| Seqs.FirstIndex | split_COCO_dataset.py:53-54 | the position of the first occurrence of a member: it holds the member, and no earlier position does |
| Seqs.DedupOrder | split_COCO_dataset.py:53-54 | de-duplication lists the values in the order of their first occurrence in the input |

## Left out

- File I/O is not modelled. This covers `json.load`, `json.dump`, `open`, `os.makedirs`, `os.path.exists` and `shutil.copy` (split_COCO_dataset.py:58, 62). The model works on the already loaded data.
- Progress bars and `print` diagnostics are not modelled. The converter returns a skip log instead.
- The label files themselves (generate_labels.py:194-204) are not written. The model gives the labels per image and each label file's path. The text of a line and its six-decimal formatting are left out.
- The image-id-to-path table of the splitter (split_COCO_dataset.py:35) is modelled only for the `KeyError` it raises, because its paths feed only `shutil.copy`.
- Arithmetic is exact `real` division. Floating-point rounding is left out.
- GenerateLabels.RleToYoloPolygon: RLE decoding, contour finding, area selection and simplification are the `ContourFinder` parameter, because they are foreign library calls. The `counts` entry is carried as a run list or as the compressed string (`Coco.Counts`), and only `ContourFinder` reads it. `ContourFinder` is total, so the exceptions of the calls it stands for (pycocotools decoding of a malformed mask, OpenCV contour finding) cannot occur in the model. The wrapping of a bare list of counts (generate_labels.py:25-26) is not modelled either.
- SplitDataset.SplitCocoDatasetByCategory: `random.shuffle` is the `Shuffle` parameter, and the lemmas assume only that it permutes.
- SplitDataset.SplitCocoDatasetByCategory: the train ratio is the fraction `num / den` instead of a float. The product `len * ratio` is therefore exact.
- SplitDataset.CollectImageIds: Python set iteration order is unspecified, so image ids are visited in first-occurrence order. The same order decides which missing image id is reported first.
- Records hold only the fields the scripts read or test. Other fields are not modelled.
- Coco.Annotation: a field holding JSON `null` is modelled as an absent field (`None`), except `segmentation`, where `null` is the `Scalar` shape and raises the `TypeError` of generate_labels.py:147 as the script does. In the scripts a `null` field is present, so the model departs from them in these cases:
  - generate_labels.py:122 accepts a `null` `image_id` or `category_id`. The first is then skipped as an unknown image (:130-132), unless some image has a `null` id. The second raises `KeyError` at :143, unless `None` is a key of the mapping. The model drops both as missing fields.
  - Without declared categories, generate_labels.py:111-112 adds a `null` `category_id` to `unique_cats`. `sorted` at :113 then raises `TypeError` when an integer id is also present. Otherwise `None` maps to 0 and the annotation is converted. The model leaves the annotation out of the mapping and drops it as a missing field.
  - split_COCO_dataset.py:39-40 groups a `null` `category_id` under `None`, and :53-54 collects a `null` `image_id` as `None`. The model reports a `KeyError` for both.
  - merge_COCO_dataset.py:56 selects an annotation with a `null` `image_id` when `None` is among the new image ids. The model's id filter never selects one.
- Coco.Image: a `null` `id` of a new source image is added to `new_image_ids` (merge_COCO_dataset.py:43-44). That makes the set non-empty and forces the id filter at :53-57, where the model falls back to selection by position when no other new image has an id. A `null` `file_name`, `width` or `height` is stored as it is in the image table of generate_labels.py:93-99. The script then fails only when an annotation uses that image: the division at :52-53 or :179-181 by a `null` size, or `os.path.splitext(None)` at :197 for an image with label entries. An image that no annotation uses never fails. The model fails at table construction, before any annotation is processed.
- Coco.Dataset: `"categories": null` is not modelled. generate_labels.py:102-104 would raise `TypeError` iterating it, and split_COCO_dataset.py:25-30 copies it to both outputs. The model has only a present list or an absent key.
- MakeImageList.Json: a JSON object with a repeated key is not modelled, because `json.load` keeps only one member per key.
- A missing top-level key (`images`, `annotations`) is not modelled. The `categories` key of the splitter is modelled.
- GenerateLabels.Classify: a segmentation is one of five shapes: an RLE object, a flat list of numbers, a list of lists, a scalar (`TypeError` at generate_labels.py:147), or another dict or string. A list mixing numbers and lists, a list holding the string `counts`, and a string containing `counts` (which the script would treat as RLE) are not modelled.
- Category and image ids are integers. Other JSON id types are not modelled.
- The module-level call of the merge script (merge_COCO_dataset.py:82-87) is not modelled. Nor are the `__main__` blocks, the hard-coded arguments of `main` in make_image_list.py, or its exit codes: they are configuration. `WriteManifest` reports the `TypeError` of a non-string name as `ok == false`.
- PosixPath.Join: `os.path.join` is modelled for two components with `/` as the only separator, including the reset at an absolute component. Drive letters and `bytes` paths are not modelled.
- GenerateLabels.Convert: the run specification is built on `Classify`, so it carries the intended no-contour skip, where the code as written raises `ValueError` (generate_labels.py:149).
- GenerateLabels.ConvertOutcome: its outcome is that of `Convert`, with the same intended no-contour skip.
- GenerateLabels.ConvertJsonToYoloLabels: an RLE mask without a contour is skipped, as the comment at generate_labels.py:151 intends. As written, the run raises `ValueError` there instead (see Findings). `GenerateLabels.ClassifyAsWritten` models the written loop body, and `GenerateLabels.NoContourAbortsAsWritten` states where the two differ.
- GenerateLabels.ProcessAnnotations: the loop skips an RLE mask without a contour, as intended, where the code as written raises `ValueError` (generate_labels.py:149).
- GenerateLabels.Step: one iteration gives the no-contour skip of `Classify`, as intended, where the code as written raises `ValueError` (generate_labels.py:149).

Elsewhere, where the code and its description differ, the model follows the code. The one exception is the no-contour skip above, where the model follows the evident intent and models the code as written beside it. An image whose annotations all pass validation but are then skipped (for example, an unknown segmentation format) keeps an empty label entry, because the entry is created at generate_labels.py:139-140 before the dispatch. `LabelKeys` and `Record` include such images.

## Findings

| source | as written | input that shows it | evidently intended | confidence | as-written member | corrected member |
|---|---|---|---|---|---|---|
| generate_labels.py:36-152 | `rle_to_yolo_polygon` returns a bare `[]` when the mask has no contour, and the caller unpacks the result into two names, which raises `ValueError`; the skip at line 152 can then fire only for an empty contour, never for a missing one | an RLE annotation whose decoded mask is all zeros, so `ContourFinder` returns `None` | a mask without a contour is reported and skipped, as the comment at line 151 says, and the run goes on | not executed | GenerateLabels.NoContourRaisesAsWritten | GenerateLabels.NoContourIsSkipped |
