# Pascal VOC to Label Studio conversion, modelled in Dafny

This project models the Pascal VOC importer of label-studio-converter
(`label_studio_converter/imports/voc.py`). The importer walks a directory of VOC XML
annotation files. It does four things:

- It reads every `object` node of every file into an annotation record.
- It collects each file's labels in first-seen order.
- It seeds one Label Studio task per file, keyed by the file's index (its image id).
- It appends one `rectanglelabels` result item per record to the task of that record's
  image.

The box is converted from pixels to percent of the image size. The run then asks the
label-config generator for `<out_file minus ".json">.label_config.xml`. Last, it writes
the tasks sorted by image id.

Modules:

- `Wrappers`: `Option` and `Result`.
- `Collections`: stand-ins for the Python built-ins the converter relies on.
  - `Dedup`: the "append if not in the list" idiom.
  - `IndexMap`: `dict(enumerate(xs))`.
  - `SortedKeys`: `sorted(d.keys())`.
- `PathText`: POSIX `os.path.join` of two parts (`JoinPath`) and `str.replace(pat, "")`
  (`RemoveAll`). `Split` and `JoinedBy` (`str.split` and `str.join`) state exactly what
  `RemoveAll` removes.
- `Voc`: the importer itself.
  - Data types for the parsed document, the records, the result items and the tasks.
  - `NewTask` and `CreateBbox` as functions.
  - `read_pascal_voc` as method `ReadPascalVoc`.
  - `convert_voc_to_ls` as method `ConvertVocToLs`, built from its two loops `ReadFiles`
    and `AddResults`, with the inner append loop `AppendEach`.
  - Each method is proved against specification functions of the whole run:
    `FlatAnnotations`, `AllCategories`, `SeedTasks`, `ResultTasks`, `FinishedTasks` and
    `ExpectedTasks`.
- `VocProperties`: lemmas about those specification functions, and concrete examples.

The run's failures are modelled as the exceptions Python would raise, each reported with
the file it concerns and proved to be the first such file:

- An unreadable file, for which the reader re-raises.
- A file with no objects, for which `annotation_list[0]` raises `IndexError`.
- A zero image width or height, for which `create_bbox` divides by zero.

A successful run returns two things. One is the arguments of the `generate_label_config`
call. The other is the task list that would be dumped as JSON, which is `None` when
there are no tasks.

Categories are not merged across files. The code does
`categories[len(categories):] = ...` per file and then `dict(enumerate(categories))`.
A label found in two files is therefore listed twice in the label map
(`VocProperties.CategoryMultiplicity`, `VocProperties.TwoCatsListedTwice`).

## Model

| member | source | states |
|---|---|---|
| Voc.NewTask | label_studio_converter/imports/voc.py:13-23 | the task's image is `os.path.join(root_url, file_name)`; it holds one entry under `out_type`, with an empty result list and `ground_truth` false |
| PathText.JoinPath | label_studio_converter/imports/voc.py:15 | POSIX `os.path.join` of two parts: the result is never shorter than the name and at most one separator longer than root plus name; JoinPathShape gives its exact shape |
| PathText.JoinPathShape | label_studio_converter/imports/voc.py:15 | the joined image path ends with the file name; an absolute name replaces the root; otherwise the root is a prefix, followed by exactly one '/' when it lacks a trailing one |
| PathText.DefaultRootJoin | label_studio_converter/imports/voc.py:98 | with the default root `/data/local-files/?d=`, the image URL is `/data/local-files/?d=/img.jpg` |
| Voc.CreateBbox | label_studio_converter/imports/voc.py:25-46 | an item exists exactly when width and height are non-zero, like Python's ZeroDivisionError; type `rectanglelabels`; rotation and image_rotation 0; the one label of the record; the given from/to names; the original size |
| Voc.CreateBboxScales | label_studio_converter/imports/voc.py:33-36 | each percentage times the image extent on its axis is the pixel value times 100 |
| VocProperties.BboxExample | label_studio_converter/imports/voc.py:25-46 | a 100x50 box at (10,20) on a 200x100 image becomes x=5, y=20, width=50, height=50 percent, labelled "dog" |
| VocProperties.NegativeExtentKept | label_studio_converter/imports/voc.py:78-79 | corners given in the wrong order are neither swapped nor clamped: the width comes out negative |
| Voc.ReadPascalVoc | label_studio_converter/imports/voc.py:48-90 | fails exactly on an unreadable file; otherwise returns the records of the document's nodes in order, and the labels de-duplicated in first-seen order |
| Voc.AnnotationOf | label_studio_converter/imports/voc.py:74-85 | the record of one node keeps xmin/ymin as origin, gives back xmax/ymax as origin plus extent, and carries the label, the document's file name and size, and the image id |
| Voc.AnnotationsOfCorners | label_studio_converter/imports/voc.py:74-85 | one record per node; each keeps xmin/ymin as origin and xmax/ymax as origin plus extent, the label, file name, width, height and image id |
| Collections.Dedup | label_studio_converter/imports/voc.py:86-87 | the append-if-absent category list, built as the reader's loop builds it; its contract bounds it by the labels seen, and the Dedup lemmas below give its contents, uniqueness and order |
| Collections.DedupElements | label_studio_converter/imports/voc.py:86-87 | the de-duplicated list holds exactly the labels seen, each once |
| Collections.DedupFirstSeenOrder | label_studio_converter/imports/voc.py:86-87 | the listed labels are ordered by first occurrence |
| Collections.DedupCount | label_studio_converter/imports/voc.py:86-87 | every label seen occurs exactly once in the category list, and labels not seen do not occur |
| Collections.DedupOfDistinct | label_studio_converter/imports/voc.py:86-87 | a label list without repeats is kept as is |
| VocProperties.FileCategoriesFirstSeen | label_studio_converter/imports/voc.py:73-90 | a file's categories: every node's name, nothing else, no name twice, in first-seen order |
| Voc.ReadFiles | label_studio_converter/imports/voc.py:137-147 | the first loop stops at the first unreadable or object-less file, with its index; otherwise the tasks are one seed per image id, the records are all files' records in file-then-node order, and the categories are the per-file lists concatenated |
| Voc.AppendEach | label_studio_converter/imports/voc.py:146-147 | the records of one file are appended in order after those already read |
| Collections.IndexMap | label_studio_converter/imports/voc.py:148 | `dict(enumerate(categories))`: keys are exactly the positions, each mapped to its label |
| VocProperties.CategoryMultiplicity | label_studio_converter/imports/voc.py:144 | a label is listed once per file that contains it: there is no de-duplication across files |
| VocProperties.TwoCatsListedTwice | label_studio_converter/imports/voc.py:144-148 | two files with one "cat" each give the label map {0: "cat", 1: "cat"} |
| VocProperties.FlatImageIdsAscending | label_studio_converter/imports/voc.py:142-147 | the flattened records are grouped by file: image ids never decrease |
| VocProperties.FlatNonEmpty | label_studio_converter/imports/voc.py:157-162 | on convertible files there is a record exactly when there is a file, so the rectangle tag is registered exactly when the directory is not empty |
| Voc.AddResults | label_studio_converter/imports/voc.py:152-182 | the second loop fails exactly when some file has a zero image size, naming the first such file; otherwise each image's task is its file's finished task, and the tag map is `{from_name + "_rectangles": "RectangleLabels"}` exactly when there was a record |
| Voc.AppendResult | label_studio_converter/imports/voc.py:180 | `task[out_type][0]['result'].append(item)`: the first entry's result list gains exactly the item at its end; image, key, ground-truth flag and the other entries are unchanged |
| Voc.WithImageIdFlat | label_studio_converter/imports/voc.py:165-182 | the records that reach image g's task are exactly file g's records |
| Voc.FirstUnsizedFile | label_studio_converter/imports/voc.py:157-182 | the first record with a zero image size belongs to the first file with a zero image size |
| Voc.ExpectedTaskItems | label_studio_converter/imports/voc.py:170-182 | item k of a finished task is object k's rectangle: its label, names, image size, and corners scaled to percent |
| VocProperties.ItemCountExpected | label_studio_converter/imports/voc.py:157-182 | the finished tasks hold exactly as many result items as the files have objects |
| Voc.LabelConfigPath | label_studio_converter/imports/voc.py:185 | the label-config path ends in ".label_config.xml" and is no longer than the output name plus that suffix; LabelConfigRemovesEvery states what it is for every output name |
| VocProperties.LabelConfigRemovesEvery | label_studio_converter/imports/voc.py:185 | for any output name: cut at every ".json" scanning left to right, it is ".json"-free pieces joined by ".json", and its config path is those pieces concatenated, followed by ".label_config.xml" |
| VocProperties.LabelConfigOfPieces | label_studio_converter/imports/voc.py:185 | ".json"-free pieces joined by ".json" lose every joint and keep every piece, then get ".label_config.xml" |
| PathText.RemoveAll | label_studio_converter/imports/voc.py:185 | `str.replace(pat, "")`, scanning left to right; the result is never longer than the input, and the lemmas below give what it removes |
| PathText.RemoveAllStep | label_studio_converter/imports/voc.py:185 | for an unbordered `pat` and a `pat`-free `s`: `(s + pat + t).replace(pat, "")` is `s + t.replace(pat, "")` |
| PathText.RemoveAllJoined | label_studio_converter/imports/voc.py:185 | for an unbordered `pat`: `pat.join(pieces).replace(pat, "")` is `"".join(pieces)` when no piece contains `pat` |
| PathText.SplitJoins | label_studio_converter/imports/voc.py:185 | splitting at every occurrence of `pat`, left to right, gives `pat`-free pieces that `pat`-join back to the input |
| VocProperties.LabelConfigOfJson | label_studio_converter/imports/voc.py:185 | an output name `stem + ".json"`, where `stem` contains no ".json", gets the config path `stem + ".label_config.xml"` |
| VocProperties.LabelConfigOfOther | label_studio_converter/imports/voc.py:185 | an output name without ".json" gets ".label_config.xml" appended |
| VocProperties.LabelConfigExample | label_studio_converter/imports/voc.py:222 | the default output "output.json" writes its config to "output.label_config.xml" |
| PathText.RemoveAllTrailing | label_studio_converter/imports/voc.py:185 | `(s + pat).replace(pat, "")` is `s` when `s` is free of `pat` and `pat` cannot overlap itself |
| PathText.RemoveAllFree | label_studio_converter/imports/voc.py:185 | `replace` leaves a string without the pattern unchanged |
| Collections.SortedKeys | label_studio_converter/imports/voc.py:189 | `sorted(keys)`: strictly ascending, only keys, as many as there are keys |
| Voc.TaskList | label_studio_converter/imports/voc.py:189 | `[tasks[key] for key in sorted(tasks.keys())]`: exactly one task per key; TaskListInOrder gives the order |
| Collections.SortedKeysComplete | label_studio_converter/imports/voc.py:189 | every key appears in the sorted list |
| Collections.SortedRangeKeys | label_studio_converter/imports/voc.py:189 | the sorted keys 0 .. n-1 sit at their own positions |
| Voc.TaskListInOrder | label_studio_converter/imports/voc.py:188-189 | the tasks listed by sorted image id are the files' finished tasks in directory order |
| Voc.ConvertVocToLs | label_studio_converter/imports/voc.py:92-203 | succeeds exactly when every file is readable, has an object and has a non-zero size; each error names the first offending file. On success, generate_label_config gets the enumerated concatenated categories, the rectangle tag when there was a record, the to/from names, and the derived path; the output is the files' tasks in order, or nothing when there are no files |

## Left out

- XML parsing is not modelled. A file is either a parsed document or `Unparsable`, which
  stands for any exception the parser or a missing node would raise. A non-integer size
  or a non-numeric corner is folded into `Unparsable`.
- `os.listdir` is not modelled. The directory listing is the input sequence `files`,
  taken in the order given. Joining `input_dir` with each entry is not modelled.
- File I/O is not modelled: opening the output, `json.dump` and the label-config file
  itself. The run returns what it would write instead.
- Logging and the final `print` are not modelled; they do not affect the result.
- The random `uuid4` item id is not modelled (randomness).
- The internals of `generate_label_config` are not part of this model. Its call is
  recorded with its arguments (`LabelConfigCall`).
- `add_parser` and the command-line handling are not modelled, except for the default
  output name and image root used in two examples.
- Voc.CreateBbox: uses exact reals, not IEEE doubles, so rounding is not modelled. The
  scaling facts are stated in `Voc.CreateBboxScales` rather than on the function.
- Voc.NewTask: an `out_type` of `"data"` would overwrite the `data` key of the Python
  dict. The model keeps the image and the entry list in separate fields.
- Python's `'bbox' in annotation` test is always true for the reader's records, so the
  branch where a record has no bbox is not reachable.
- The commented-out COCO code and the key-point option are not modelled: they are
  disabled in the source.
