/** Conversion of Pascal VOC object-detection annotations into Label Studio tasks
    (label_studio_converter/imports/voc.py).

    A VOC file is taken as an already parsed document; the XML parser, the reading of
    the directory and the writing of the JSON and label-config files are outside the
    model, and the converter's result records what it would write. */
module Voc {
  import opened Wrappers
  import opened Collections
  import opened PathText

  // ------------------------------------------------------------------
  // Input: one parsed VOC document per file of the input directory
  // ------------------------------------------------------------------

  /** An `object` node: its `name` and the two corners of its `bndbox`. */
  datatype VocObject = VocObject(name: string, xmin: real, ymin: real, xmax: real, ymax: real)

  /** An `annotation` root: `filename`, `size/width`, `size/height` and its `object` nodes. */
  datatype VocDocument = VocDocument(filename: string, width: int, height: int, objects: seq<VocObject>)

  /** A file of the input directory: either a document, or one the parser rejects or that
      lacks a node the reader dereferences. */
  datatype VocFile = Parsed(doc: VocDocument) | Unparsable

  // ------------------------------------------------------------------
  // Reader output
  // ------------------------------------------------------------------

  /** Upper-left corner and extent, in pixels. */
  datatype Bbox = Bbox(x: real, y: real, width: real, height: real)

  datatype Annotation = Annotation(
    bbox: Bbox,
    labelName: string,
    imageFilename: string,
    imageHeight: int,
    imageWidth: int,
    imageId: int)

  datatype VocLabels = VocLabels(annotations: seq<Annotation>, categories: seq<string>)

  datatype ParseFault = ParseError

  // ------------------------------------------------------------------
  // Label Studio records
  // ------------------------------------------------------------------

  /** The `value` of a rectangle result, in percent of the image size. */
  datatype BoxValue = BoxValue(
    x: real, y: real, width: real, height: real,
    rotation: int,
    rectanglelabels: seq<string>)

  /** One result item (its random `id` is not modelled). */
  datatype ResultItem = ResultItem(
    itemType: string,
    value: BoxValue,
    toName: string,
    fromName: string,
    imageRotation: int,
    originalWidth: int,
    originalHeight: int)

  /** An entry of the task's `annotations` (or `predictions`) list. */
  datatype Completion = Completion(result: seq<ResultItem>, groundTruth: bool)

  /** A task: `data.image` and the list stored under the key `outType`. */
  datatype Task = Task(image: string, outType: string, entries: seq<Completion>)

  datatype BoxFault = ZeroDivision

  /** The arguments handed to the label-config generator. */
  datatype LabelConfigCall = LabelConfigCall(
    categories: map<int, string>,
    tags: map<string, string>,
    toName: string,
    fromName: string,
    path: string)

  /** What a run produces: the label-config request, and the task list written as JSON
      (`None` when there are no tasks and nothing is written). */
  datatype Conversion = Conversion(labelConfig: LabelConfigCall, output: Option<seq<Task>>)

  /** The exceptions that abort a run. */
  datatype ConvertError =
    | Unreadable(fileIndex: nat)      // the reader re-raises the parse failure
    | NoObjects(fileIndex: nat)       // `annotation_list[0]` on an empty list
    | ZeroImageSize(imageId: int)     // division by a zero image width or height

  const RectangleSuffix: string := "_rectangles"
  const RectangleTag: string := "RectangleLabels"
  const JsonExtension: string := ".json"
  const LabelConfigSuffix: string := ".label_config.xml"

  // ------------------------------------------------------------------
  // new_task and create_bbox
  // ------------------------------------------------------------------

  /** An empty task for one image. */
  function NewTask(outType: string, rootUrl: string, fileName: string): (t: Task)
    ensures t.image == JoinPath(rootUrl, fileName)
    ensures t.outType == outType
    ensures |t.entries| == 1 && t.entries[0].result == [] && !t.entries[0].groundTruth
  {
    Task(JoinPath(rootUrl, fileName), outType, [Completion([], false)])
  }

  /** A rectangle result for one annotation; the pixel box is scaled to percent of the
      image size, without clamping. Python raises on a zero width or height. */
  function CreateBbox(annotation: Annotation, fromName: string, imageHeight: int, imageWidth: int,
                      toName: string): (r: Result<ResultItem, BoxFault>)
    ensures r.Success? <==> imageWidth != 0 && imageHeight != 0
    ensures r.Success? ==>
              r.value.value.rotation == 0 && r.value.value.rectanglelabels == [annotation.labelName]
    ensures r.Success? ==>
              && r.value.itemType == "rectanglelabels" && r.value.imageRotation == 0
              && r.value.toName == toName && r.value.fromName == fromName
              && r.value.originalWidth == imageWidth && r.value.originalHeight == imageHeight
  {
    if imageWidth == 0 || imageHeight == 0 then Failure(ZeroDivision)
    else
      var w, h := imageWidth as real, imageHeight as real;
      var b := annotation.bbox;
      Success(ResultItem(
        "rectanglelabels",
        BoxValue(b.x / w * 100.0, b.y / h * 100.0, b.width / w * 100.0, b.height / h * 100.0,
                 0, [annotation.labelName]),
        toName, fromName, 0, imageWidth, imageHeight))
  }

  /** The percentages scale back to the pixel box: each coordinate times the image
      extent along its axis is the pixel value times 100. */
  lemma CreateBboxScales(annotation: Annotation, fromName: string, imageHeight: int, imageWidth: int,
                         toName: string)
    requires imageWidth != 0 && imageHeight != 0
    ensures var b, v := annotation.bbox, CreateBbox(annotation, fromName, imageHeight, imageWidth, toName).value.value;
            && v.x * imageWidth as real == b.x * 100.0
            && v.y * imageHeight as real == b.y * 100.0
            && v.width * imageWidth as real == b.width * 100.0
            && v.height * imageHeight as real == b.height * 100.0
  {
  }

  // ------------------------------------------------------------------
  // read_pascal_voc
  // ------------------------------------------------------------------

  /** The record the reader builds for one object node. */
  function AnnotationOf(doc: VocDocument, o: VocObject, imageId: int): (a: Annotation)
    ensures a.bbox.x == o.xmin && a.bbox.y == o.ymin
    ensures a.bbox.x + a.bbox.width == o.xmax && a.bbox.y + a.bbox.height == o.ymax
    ensures a.labelName == o.name && a.imageFilename == doc.filename
    ensures a.imageWidth == doc.width && a.imageHeight == doc.height && a.imageId == imageId
  {
    Annotation(Bbox(o.xmin, o.ymin, o.xmax - o.xmin, o.ymax - o.ymin),
               o.name, doc.filename, doc.height, doc.width, imageId)
  }

  /** The records the reader builds for `objects`, one per node in order; defined from
      the end, the way the reader's loop appends them. */
  function Records(doc: VocDocument, objects: seq<VocObject>, imageId: int): (anns: seq<Annotation>)
    ensures |anns| == |objects|
    ensures forall k :: 0 <= k < |anns| ==>
              anns[k].imageWidth == doc.width && anns[k].imageHeight == doc.height && anns[k].imageId == imageId
    decreases |objects|
  {
    if objects == [] then []
    else
      var n := |objects| - 1;
      Records(doc, objects[..n], imageId) + [AnnotationOf(doc, objects[n], imageId)]
  }

  /** The reader's annotation list for a document. */
  function AnnotationsOf(doc: VocDocument, imageId: int): seq<Annotation> {
    Records(doc, doc.objects, imageId)
  }

  /** Record `k` is the one built from node `k`. */
  lemma {:induction false} RecordAt(doc: VocDocument, objects: seq<VocObject>, imageId: int, k: nat)
    requires k < |objects|
    ensures Records(doc, objects, imageId)[k] == AnnotationOf(doc, objects[k], imageId)
    decreases |objects|
  {
    var n := |objects| - 1;
    if k < n {
      RecordAt(doc, objects[..n], imageId, k);
    }
  }

  lemma RecordsAt(doc: VocDocument, objects: seq<VocObject>, imageId: int)
    ensures forall k :: 0 <= k < |objects| ==>
              Records(doc, objects, imageId)[k] == AnnotationOf(doc, objects[k], imageId)
  {
    forall k | 0 <= k < |objects|
      ensures Records(doc, objects, imageId)[k] == AnnotationOf(doc, objects[k], imageId)
    {
      RecordAt(doc, objects, imageId, k);
    }
  }

  /** Each record keeps its node's corners (as origin plus extent), its label, and the
      document's file name and size, tagged with the image id. */
  lemma {:induction false} AnnotationsOfCorners(doc: VocDocument, imageId: int)
    ensures |AnnotationsOf(doc, imageId)| == |doc.objects|
    ensures forall k :: 0 <= k < |doc.objects| ==>
              var a, o := AnnotationsOf(doc, imageId)[k], doc.objects[k];
              && a.bbox.x == o.xmin && a.bbox.y == o.ymin
              && a.bbox.x + a.bbox.width == o.xmax && a.bbox.y + a.bbox.height == o.ymax
              && a.labelName == o.name && a.imageFilename == doc.filename
              && a.imageWidth == doc.width && a.imageHeight == doc.height && a.imageId == imageId
  {
    RecordsAt(doc, doc.objects, imageId);
  }

  /** The object labels in document order. */
  function Labels(objects: seq<VocObject>): (ls: seq<string>)
    ensures |ls| == |objects|
    decreases |objects|
  {
    if objects == [] then []
    else Labels(objects[..|objects| - 1]) + [objects[|objects| - 1].name]
  }

  /** `read_pascal_voc`: walks the object nodes, appending one record per node and each
      label not yet listed. */
  method ReadPascalVoc(file: VocFile, imageId: int) returns (r: Result<VocLabels, ParseFault>)
    ensures r.Failure? <==> file.Unparsable?
    ensures r.Success? ==> r.value.annotations == AnnotationsOf(file.doc, imageId)
    ensures r.Success? ==> r.value.categories == Dedup(Labels(file.doc.objects))
  {
    if file.Unparsable? {
      return Failure(ParseError);
    }
    var doc := file.doc;
    var annotations: seq<Annotation> := [];
    var categories: seq<string> := [];
    var k := 0;
    while k < |doc.objects|
      invariant 0 <= k <= |doc.objects|
      invariant annotations == Records(doc, doc.objects[..k], imageId)
      invariant categories == Dedup(Labels(doc.objects[..k]))
    {
      var o := doc.objects[k];
      var annotation := Annotation(Bbox(o.xmin, o.ymin, o.xmax - o.xmin, o.ymax - o.ymin),
                                   o.name, doc.filename, doc.height, doc.width, imageId);
      assert doc.objects[..k + 1][..k] == doc.objects[..k];
      if annotation.labelName !in categories {
        categories := categories + [annotation.labelName];
      }
      annotations := annotations + [annotation];
      k := k + 1;
    }
    assert doc.objects[..k] == doc.objects;
    return Success(VocLabels(annotations, categories));
  }

  // ------------------------------------------------------------------
  // Specification of a whole run
  // ------------------------------------------------------------------

  function FileAnnotations(f: VocFile, imageId: int): seq<Annotation> {
    if f.Parsed? then AnnotationsOf(f.doc, imageId) else []
  }

  function FileCategories(f: VocFile): seq<string> {
    if f.Parsed? then Dedup(Labels(f.doc.objects)) else []
  }

  /** The record `a` was read from file `files[a.imageId]`. */
  predicate FromFile(a: Annotation, files: seq<VocFile>) {
    && 0 <= a.imageId < |files|
    && files[a.imageId].Parsed?
    && a.imageWidth == files[a.imageId].doc.width
    && a.imageHeight == files[a.imageId].doc.height
  }

  function ObjectCount(files: seq<VocFile>): nat
    decreases |files|
  {
    if files == [] then 0
    else
      var last := files[|files| - 1];
      ObjectCount(files[..|files| - 1]) + if last.Parsed? then |last.doc.objects| else 0
  }

  /** All records of a run, file after file, object after object; file `i` is read
      with image id `i`. */
  function FlatAnnotations(files: seq<VocFile>): (anns: seq<Annotation>)
    ensures |anns| == ObjectCount(files)
    ensures forall q :: 0 <= q < |anns| ==> FromFile(anns[q], files)
    decreases |files|
  {
    if files == [] then []
    else
      var init := files[..|files| - 1];
      var prev := FlatAnnotations(init);
      var last := FileAnnotations(files[|files| - 1], |files| - 1);
      assert forall q :: 0 <= q < |prev| ==> FromFile(prev[q], init) && files[prev[q].imageId] == init[prev[q].imageId];
      prev + last
  }

  /** The running category list: each file's de-duplicated labels appended in turn,
      with no de-duplication across files. */
  function AllCategories(files: seq<VocFile>): seq<string>
    decreases |files|
  {
    if files == [] then []
    else AllCategories(files[..|files| - 1]) + FileCategories(files[|files| - 1])
  }

  /** How many files have an object labelled `x`. */
  function FilesWithLabel(files: seq<VocFile>, x: string): nat
    decreases |files|
  {
    if files == [] then 0
    else
      var last := files[|files| - 1];
      FilesWithLabel(files[..|files| - 1], x) + if last.Parsed? && x in Labels(last.doc.objects) then 1 else 0
  }

  predicate SizedAnnotation(a: Annotation) {
    a.imageWidth != 0 && a.imageHeight != 0
  }

  predicate SizedAnnotations(anns: seq<Annotation>) {
    forall k :: 0 <= k < |anns| ==> SizedAnnotation(anns[k])
  }

  predicate SizedDoc(d: VocDocument) {
    d.width != 0 && d.height != 0
  }

  /** The records of `anns` read for image `id`, in order. */
  function WithImageId(anns: seq<Annotation>, id: int): (r: seq<Annotation>)
    ensures forall k :: 0 <= k < |r| ==> r[k].imageId == id
    ensures SizedAnnotations(anns) ==> SizedAnnotations(r)
    decreases |anns|
  {
    if anns == [] then []
    else
      var init := anns[..|anns| - 1];
      var prev := WithImageId(init, id);
      var last := anns[|anns| - 1];
      assert SizedAnnotations(anns) ==> SizedAnnotations(init) && SizedAnnotation(last);
      if last.imageId == id then prev + [last] else prev
  }

  /** Files `0 .. n-1` are read without error and each has an object to seed its task. */
  predicate SeedsBefore(files: seq<VocFile>, n: int) {
    n <= |files| && forall g :: 0 <= g < n ==> files[g].Parsed? && files[g].doc.objects != []
  }

  /** Files `0 .. n-1` that were read have a non-zero image width and height. */
  predicate SizedBefore(files: seq<VocFile>, n: int) {
    forall g :: 0 <= g < n && g < |files| ==>
      files[g].Parsed? ==> files[g].doc.width != 0 && files[g].doc.height != 0
  }

  /** Every file converts: it is read, seeds a task and has a non-zero image size. */
  predicate AllConvertible(files: seq<VocFile>) {
    forall g :: 0 <= g < |files| ==>
      && files[g].Parsed? && files[g].doc.objects != []
      && files[g].doc.width != 0 && files[g].doc.height != 0
  }

  /** The converter's item for one record. */
  function ItemFor(a: Annotation, rectanglesFromName: string, toName: string): ResultItem
    requires SizedAnnotation(a)
  {
    CreateBbox(a, rectanglesFromName, a.imageHeight, a.imageWidth, toName).value
  }

  /** The items of `anns`, in order; defined from the end, as the converter appends them. */
  function ItemsFor(anns: seq<Annotation>, rectanglesFromName: string, toName: string): (items: seq<ResultItem>)
    requires SizedAnnotations(anns)
    ensures |items| == |anns|
    decreases |anns|
  {
    if anns == [] then []
    else
      var n := |anns| - 1;
      assert SizedAnnotations(anns[..n]) && SizedAnnotation(anns[n]);
      ItemsFor(anns[..n], rectanglesFromName, toName) + [ItemFor(anns[n], rectanglesFromName, toName)]
  }

  lemma {:induction false} ItemsForAt(anns: seq<Annotation>, rectanglesFromName: string, toName: string)
    requires SizedAnnotations(anns)
    ensures forall k :: 0 <= k < |anns| ==>
              ItemsFor(anns, rectanglesFromName, toName)[k] == ItemFor(anns[k], rectanglesFromName, toName)
    decreases |anns|
  {
    if anns != [] {
      var n := |anns| - 1;
      assert SizedAnnotations(anns[..n]);
      ItemsForAt(anns[..n], rectanglesFromName, toName);
    }
  }

  /** `t` with the result list of its first entry replaced. */
  function WithResult(t: Task, items: seq<ResultItem>): (r: Task)
    requires |t.entries| > 0
    ensures r.image == t.image && r.outType == t.outType && |r.entries| == |t.entries|
    ensures r.entries[0] == t.entries[0].(result := items)
    ensures forall k :: 1 <= k < |r.entries| ==> r.entries[k] == t.entries[k]
  {
    t.(entries := t.entries[0 := t.entries[0].(result := items)])
  }

  /** `task[out_type][0]['result'].append(item)`. */
  function AppendResult(t: Task, item: ResultItem): (r: Task)
    requires |t.entries| > 0
    ensures r.image == t.image && r.outType == t.outType && |r.entries| == |t.entries|
    ensures r.entries[0].result == t.entries[0].result + [item]
    ensures r.entries[0].groundTruth == t.entries[0].groundTruth
    ensures forall k :: 1 <= k < |r.entries| ==> r.entries[k] == t.entries[k]
  {
    var entry := t.entries[0];
    t.(entries := t.entries[0 := entry.(result := entry.result + [item])])
  }

  /** The finished task of file `doc` read as image `imageId`: the new task of its file
      name, with one rectangle item per object in its one entry. */
  function ExpectedTask(doc: VocDocument, imageId: int, outType: string, rootUrl: string,
                        fromName: string, toName: string): (t: Task)
    requires SizedDoc(doc)
    ensures t.image == JoinPath(rootUrl, doc.filename) && t.outType == outType
    ensures |t.entries| == 1 && !t.entries[0].groundTruth
    ensures |t.entries[0].result| == |doc.objects|
  {
    WithResult(NewTask(outType, rootUrl, doc.filename),
               ItemsFor(AnnotationsOf(doc, imageId), fromName + RectangleSuffix, toName))
  }

  /** Item `k` of a finished task is the rectangle of object `k`: its label, the names
      it connects, the image size, and its corners scaled to percent. */
  lemma ExpectedTaskItems(doc: VocDocument, imageId: int, outType: string, rootUrl: string,
                          fromName: string, toName: string)
    requires SizedDoc(doc)
    ensures forall k :: 0 <= k < |doc.objects| ==>
              var item := ExpectedTask(doc, imageId, outType, rootUrl, fromName, toName).entries[0].result[k];
              var o := doc.objects[k];
              && item == ItemFor(AnnotationOf(doc, o, imageId), fromName + RectangleSuffix, toName)
              && item.value.rectanglelabels == [o.name]
              && item.fromName == fromName + RectangleSuffix && item.toName == toName
              && item.originalWidth == doc.width && item.originalHeight == doc.height
              && item.value.x * doc.width as real == o.xmin * 100.0
              && item.value.y * doc.height as real == o.ymin * 100.0
              && item.value.width * doc.width as real == (o.xmax - o.xmin) * 100.0
              && item.value.height * doc.height as real == (o.ymax - o.ymin) * 100.0
  {
    var anns := AnnotationsOf(doc, imageId);
    RecordsAt(doc, doc.objects, imageId);
    ItemsForAt(anns, fromName + RectangleSuffix, toName);
    forall k | 0 <= k < |doc.objects|
      ensures var b := AnnotationOf(doc, doc.objects[k], imageId);
              var v := CreateBbox(b, fromName + RectangleSuffix, doc.height, doc.width, toName).value.value;
              && v.x * doc.width as real == b.bbox.x * 100.0
              && v.y * doc.height as real == b.bbox.y * 100.0
              && v.width * doc.width as real == b.bbox.width * 100.0
              && v.height * doc.height as real == b.bbox.height * 100.0
    {
      CreateBboxScales(AnnotationOf(doc, doc.objects[k], imageId), fromName + RectangleSuffix,
                       doc.height, doc.width, toName);
    }
  }

  /** The task list of a run over convertible files, in file order. */
  function ExpectedTasks(files: seq<VocFile>, outType: string, rootUrl: string,
                         fromName: string, toName: string): (ts: seq<Task>)
    requires AllConvertible(files)
    ensures |ts| == |files|
    ensures forall f :: 0 <= f < |files| ==>
              ts[f] == ExpectedTask(files[f].doc, f, outType, rootUrl, fromName, toName)
  {
    seq(|files|, f requires 0 <= f < |files| && AllConvertible(files) =>
          ExpectedTask(files[f].doc, f, outType, rootUrl, fromName, toName))
  }

  /** The path the label config is written to: `out_file.replace('.json', '')` with
      ".label_config.xml" appended. */
  function LabelConfigPath(outFile: string): (p: string)
    ensures EndsWith(p, LabelConfigSuffix)
    ensures |p| <= |outFile| + |LabelConfigSuffix|
  {
    RemoveAll(outFile, JsonExtension) + LabelConfigSuffix
  }

  // ------------------------------------------------------------------
  // convert_voc_to_ls
  // ------------------------------------------------------------------

  /** The task dictionary after the first `n` files: a fresh task per image id. */
  function SeedTasks(files: seq<VocFile>, n: nat, outType: string, rootUrl: string): map<int, Task>
    requires SeedsBefore(files, n)
  {
    map g | 0 <= g < n :: NewTask(outType, rootUrl, files[g].doc.filename)
  }

  /** The task dictionary once the records before position `j` have their items. */
  function ResultTasks(files: seq<VocFile>, anns: seq<Annotation>, j: nat, outType: string, rootUrl: string,
                       rectanglesFromName: string, toName: string): map<int, Task>
    requires SeedsBefore(files, |files|) && j <= |anns| && SizedAnnotations(anns[..j])
  {
    map g | 0 <= g < |files| :: ImageTask(files, anns, j, g, outType, rootUrl, rectanglesFromName, toName)
  }

  /** The task of image `g` once the records before position `j` have their items. */
  function ImageTask(files: seq<VocFile>, anns: seq<Annotation>, j: nat, g: nat, outType: string, rootUrl: string,
                     rectanglesFromName: string, toName: string): Task
    requires g < |files| && files[g].Parsed? && j <= |anns| && SizedAnnotations(anns[..j])
  {
    WithResult(NewTask(outType, rootUrl, files[g].doc.filename),
               ItemsFor(WithImageId(anns[..j], g), rectanglesFromName, toName))
  }

  /** The finished task dictionary of a run over convertible files. */
  function FinishedTasks(files: seq<VocFile>, outType: string, rootUrl: string,
                         fromName: string, toName: string): map<int, Task>
    requires AllConvertible(files)
  {
    map g | 0 <= g < |files| :: ExpectedTask(files[g].doc, g, outType, rootUrl, fromName, toName)
  }

  /** `[tasks[key] for key in sorted(tasks.keys())]`. */
  function TaskList(tasks: map<int, Task>): (ts: seq<Task>)
    ensures |ts| == |tasks|
  {
    var keys := SortedKeys(tasks.Keys);
    seq(|keys|, k requires 0 <= k < |keys| => tasks[keys[k]])
  }

  /** The state after the first loop of the converter. */
  datatype Batch = Batch(tasks: map<int, Task>, annotations: seq<Annotation>, categories: seq<string>)

  /** The first loop of `convert_voc_to_ls`: reads file `i` as image `i`, appends its
      categories, seeds its task from its first record and appends its records. */
  method ReadFiles(files: seq<VocFile>, outType: string, imageRootUrl: string)
    returns (r: Result<Batch, ConvertError>)
    ensures r.Success? <==> SeedsBefore(files, |files|)
    ensures r.Failure? ==> r.error.Unreadable? || r.error.NoObjects?
    ensures r.Failure? && r.error.Unreadable? ==>
              var f := r.error.fileIndex;
              f < |files| && files[f].Unparsable? && SeedsBefore(files, f)
    ensures r.Failure? && r.error.NoObjects? ==>
              var f := r.error.fileIndex;
              f < |files| && files[f].Parsed? && files[f].doc.objects == [] && SeedsBefore(files, f)
    ensures r.Success? ==>
              && r.value.tasks == SeedTasks(files, |files|, outType, imageRootUrl)
              && r.value.annotations == FlatAnnotations(files)
              && r.value.categories == AllCategories(files)
  {
    var tasks: map<int, Task> := map[];
    var annotations: seq<Annotation> := [];
    var categories: seq<string> := [];
    var i := 0;
    while i < |files|
      invariant 0 <= i <= |files|
      invariant SeedsBefore(files, i)
      invariant tasks == SeedTasks(files, i, outType, imageRootUrl)
      invariant annotations == FlatAnnotations(files[..i])
      invariant categories == AllCategories(files[..i])
    {
      var read := ReadPascalVoc(files[i], i);
      if read.Failure? {
        return Failure(Unreadable(i));
      }
      var annotationList := read.value.annotations;
      categories := categories + read.value.categories;
      if |annotationList| == 0 {
        return Failure(NoObjects(i));
      }
      assert |annotationList| == |files[i].doc.objects|;
      SeedsStep(files, i);
      RecordAt(files[i].doc, files[i].doc.objects, i, 0);
      SeedTasksStep(files, i, outType, imageRootUrl);
      tasks := tasks[i := NewTask(outType, imageRootUrl, annotationList[0].imageFilename)];
      annotations := AppendEach(annotations, annotationList);
      RunSnoc(files, i);
      i := i + 1;
    }
    assert files[..i] == files;
    return Success(Batch(tasks, annotations, categories));
  }

  /** The inner loop of the first one: `for ann in annotation_list: annotations.append(ann)`. */
  method AppendEach(annotations: seq<Annotation>, annotationList: seq<Annotation>)
    returns (r: seq<Annotation>)
    ensures r == annotations + annotationList
  {
    r := annotations;
    var k := 0;
    while k < |annotationList|
      invariant 0 <= k <= |annotationList|
      invariant r == annotations + annotationList[..k]
    {
      assert annotationList[..k + 1] == annotationList[..k] + [annotationList[k]];
      r := r + [annotationList[k]];
      k := k + 1;
    }
    assert annotationList[..k] == annotationList;
  }

  /** The second loop of `convert_voc_to_ls`: registers the rectangle tag on the first
      record with a bbox, then appends each record's item to the result list of its
      image's task. */
  method AddResults(files: seq<VocFile>, tasks: map<int, Task>, annotations: seq<Annotation>,
                    fromName: string, toName: string, outType: string, imageRootUrl: string)
    returns (r: Result<(map<int, Task>, map<string, string>), ConvertError>)
    requires SeedsBefore(files, |files|)
    requires annotations == FlatAnnotations(files)
    requires tasks == SeedTasks(files, |files|, outType, imageRootUrl)
    ensures r.Success? <==> AllConvertible(files)
    ensures r.Failure? ==> r.error.ZeroImageSize?
    ensures r.Failure? && r.error.ZeroImageSize? ==>
              var f := r.error.imageId;
              0 <= f < |files| && files[f].Parsed? && !SizedDoc(files[f].doc) && SizedBefore(files, f)
    ensures r.Success? ==>
              var (done, tags) := r.value;
              && done == FinishedTasks(files, outType, imageRootUrl, fromName, toName)
              && tags == if annotations != [] then map[fromName + RectangleSuffix := RectangleTag] else map[]
  {
    var tasks := tasks;
    // flags for composing the labeling config
    var bbox := false;
    var bboxOnce := false;
    var rectanglesFromName := fromName + RectangleSuffix;
    var tags: map<string, string> := map[];
    ResultTasksInit(files, annotations, outType, imageRootUrl, rectanglesFromName, toName);
    var j := 0;
    while j < |annotations|
      invariant 0 <= j <= |annotations|
      invariant bbox == bboxOnce == (j > 0)
      invariant tags == if j > 0 then map[rectanglesFromName := RectangleTag] else map[]
      invariant SizedAnnotations(annotations[..j])
      invariant tasks == ResultTasks(files, annotations, j, outType, imageRootUrl, rectanglesFromName, toName)
    {
      var annotation := annotations[j];
      bbox := true;  // every record carries a bbox
      if bbox && !bboxOnce {
        tags := tags[rectanglesFromName := RectangleTag];
        bboxOnce := true;
      }
      var imageId := annotation.imageId;
      assert FromFile(annotation, files);
      var task := tasks[imageId];
      var item := CreateBbox(annotation, rectanglesFromName, annotation.imageHeight,
                             annotation.imageWidth, toName);
      if item.Failure? {
        FirstUnsizedFile(files, j);
        return Failure(ZeroImageSize(imageId));
      }
      ResultStep(files, annotations, j, outType, imageRootUrl, rectanglesFromName, toName);
      task := AppendResult(task, item.value);
      tasks := tasks[imageId := task];
      j := j + 1;
    }
    assert annotations[..j] == annotations;
    AllFilesSized(files);
    TasksByImage(files, outType, imageRootUrl, fromName, toName);
    return Success((tasks, tags));
  }

  /** `convert_voc_to_ls` over the directory listing `files`. */
  method ConvertVocToLs(files: seq<VocFile>, outFile: string, toName: string, fromName: string,
                        outType: string, imageRootUrl: string)
    returns (r: Result<Conversion, ConvertError>)
    ensures r.Success? <==> AllConvertible(files)
    ensures r.Failure? && r.error.Unreadable? ==>
              var f := r.error.fileIndex;
              f < |files| && files[f].Unparsable? && SeedsBefore(files, f)
    ensures r.Failure? && r.error.NoObjects? ==>
              var f := r.error.fileIndex;
              f < |files| && files[f].Parsed? && files[f].doc.objects == [] && SeedsBefore(files, f)
    ensures r.Failure? && r.error.ZeroImageSize? ==>
              var f := r.error.imageId;
              && 0 <= f < |files| && SeedsBefore(files, |files|)
              && files[f].Parsed? && !SizedDoc(files[f].doc) && SizedBefore(files, f)
    ensures r.Success? ==>
              r.value.labelConfig == LabelConfigCall(
                IndexMap(AllCategories(files)),
                if FlatAnnotations(files) != [] then map[fromName + RectangleSuffix := RectangleTag] else map[],
                toName, fromName, LabelConfigPath(outFile))
    ensures r.Success? ==>
              r.value.output == if files == [] then None
                                else Some(ExpectedTasks(files, outType, imageRootUrl, fromName, toName))
  {
    var batch := ReadFiles(files, outType, imageRootUrl);
    if batch.Failure? {
      return Failure(batch.error);
    }
    var categoryMap := IndexMap(batch.value.categories);
    var added := AddResults(files, batch.value.tasks, batch.value.annotations,
                            fromName, toName, outType, imageRootUrl);
    if added.Failure? {
      return Failure(added.error);
    }
    var (tasks, tags) := added.value;
    KeysAreRange(tasks, |files|);

    var labelConfigFile := LabelConfigPath(outFile);
    var call := LabelConfigCall(categoryMap, tags, toName, fromName, labelConfigFile);
    if |tasks| > 0 {
      TaskListInOrder(files, outType, imageRootUrl, fromName, toName);
      return Success(Conversion(call, Some(TaskList(tasks))));
    }
    return Success(Conversion(call, None));
  }

  // ------------------------------------------------------------------
  // Lemmas used by the converter
  // ------------------------------------------------------------------

  /** One more file read: the running records and categories grow by that file's. */
  lemma {:induction false} RunSnoc(files: seq<VocFile>, i: nat)
    requires i < |files|
    ensures FlatAnnotations(files[..i + 1]) == FlatAnnotations(files[..i]) + FileAnnotations(files[i], i)
    ensures AllCategories(files[..i + 1]) == AllCategories(files[..i]) + FileCategories(files[i])
  {
    assert files[..i + 1][..i] == files[..i];
  }

  lemma {:induction false} SeedsStep(files: seq<VocFile>, i: nat)
    requires SeedsBefore(files, i) && i < |files| && files[i].Parsed? && files[i].doc.objects != []
    ensures SeedsBefore(files, i + 1)
  {
  }

  lemma {:induction false} SeedTasksStep(files: seq<VocFile>, i: nat, outType: string, rootUrl: string)
    requires SeedsBefore(files, i + 1)
    ensures SeedTasks(files, i, outType, rootUrl)[i := NewTask(outType, rootUrl, files[i].doc.filename)]
            == SeedTasks(files, i + 1, outType, rootUrl)
  {
  }

  /** Appending record `anns[j]` adds its item to the list of its own image only. */
  lemma {:induction false} ItemsStep(anns: seq<Annotation>, j: nat, g: int, rectanglesFromName: string, toName: string)
    requires j < |anns| && SizedAnnotations(anns[..j + 1])
    ensures SizedAnnotations(anns[..j])
    ensures SizedAnnotations(WithImageId(anns[..j], g)) && SizedAnnotations(WithImageId(anns[..j + 1], g))
    ensures ItemsFor(WithImageId(anns[..j + 1], g), rectanglesFromName, toName)
            == ItemsFor(WithImageId(anns[..j], g), rectanglesFromName, toName)
               + if anns[j].imageId == g then [ItemFor(anns[j], rectanglesFromName, toName)] else []
  {
    assert anns[..j + 1][..j] == anns[..j];
    var prev := WithImageId(anns[..j], g);
    if anns[j].imageId == g {
      assert (prev + [anns[j]])[..|prev|] == prev;
    }
  }

  /** Before the second loop every task is its seed with an empty result list. */
  lemma {:induction false} ResultTasksInit(files: seq<VocFile>, anns: seq<Annotation>, outType: string, rootUrl: string,
                                           rectanglesFromName: string, toName: string)
    requires SeedsBefore(files, |files|)
    ensures SeedTasks(files, |files|, outType, rootUrl)
            == ResultTasks(files, anns, 0, outType, rootUrl, rectanglesFromName, toName)
  {
    assert anns[..0] == [];
    forall g | 0 <= g < |files|
      ensures WithResult(NewTask(outType, rootUrl, files[g].doc.filename), [])
              == NewTask(outType, rootUrl, files[g].doc.filename)
    {
      var t := NewTask(outType, rootUrl, files[g].doc.filename);
      assert WithResult(t, []).entries == t.entries;
    }
  }

  /** The invariant of the second loop survives appending the item of record `j` to
      the task of its image. */
  lemma {:induction false} ResultStep(files: seq<VocFile>, annotations: seq<Annotation>, j: nat,
                   outType: string, rootUrl: string, rectanglesFromName: string, toName: string)
    requires SeedsBefore(files, |files|)
    requires j < |annotations| && 0 <= annotations[j].imageId < |files|
    requires SizedAnnotations(annotations[..j]) && SizedAnnotation(annotations[j])
    ensures SizedAnnotations(annotations[..j + 1])
    ensures var m := ResultTasks(files, annotations, j, outType, rootUrl, rectanglesFromName, toName);
            var id := annotations[j].imageId;
            |m[id].entries| > 0 &&
            m[id := AppendResult(m[id], ItemFor(annotations[j], rectanglesFromName, toName))]
            == ResultTasks(files, annotations, j + 1, outType, rootUrl, rectanglesFromName, toName)
  {
    assert annotations[..j + 1] == annotations[..j] + [annotations[j]];
    ImageTasksStep(files, annotations, j, outType, rootUrl, rectanglesFromName, toName);
    var m := ResultTasks(files, annotations, j, outType, rootUrl, rectanglesFromName, toName);
    var m' := ResultTasks(files, annotations, j + 1, outType, rootUrl, rectanglesFromName, toName);
    var id := annotations[j].imageId;
    UpdateKeyed(m, m', |files|, id, AppendResult(m[id], ItemFor(annotations[j], rectanglesFromName, toName)));
  }

  /** Record `j` changes the task of its own image, and only that one. */
  lemma {:induction false} ImageTasksStep(files: seq<VocFile>, anns: seq<Annotation>, j: nat,
                                          outType: string, rootUrl: string, rectanglesFromName: string, toName: string)
    requires SeedsBefore(files, |files|)
    requires j < |anns| && 0 <= anns[j].imageId < |files| && SizedAnnotations(anns[..j + 1])
    ensures SizedAnnotations(anns[..j]) && SizedAnnotation(anns[j])
    ensures |ImageTask(files, anns, j, anns[j].imageId, outType, rootUrl, rectanglesFromName, toName).entries| > 0
    ensures forall g :: 0 <= g < |files| ==>
              ImageTask(files, anns, j + 1, g, outType, rootUrl, rectanglesFromName, toName)
              == if g == anns[j].imageId
                 then AppendResult(ImageTask(files, anns, j, g, outType, rootUrl, rectanglesFromName, toName),
                                   ItemFor(anns[j], rectanglesFromName, toName))
                 else ImageTask(files, anns, j, g, outType, rootUrl, rectanglesFromName, toName)
  {
    assert anns[..j + 1][j] == anns[j];
    forall g | 0 <= g < |files|
      ensures ImageTask(files, anns, j + 1, g, outType, rootUrl, rectanglesFromName, toName)
              == if g == anns[j].imageId
                 then AppendResult(ImageTask(files, anns, j, g, outType, rootUrl, rectanglesFromName, toName),
                                   ItemFor(anns[j], rectanglesFromName, toName))
                 else ImageTask(files, anns, j, g, outType, rootUrl, rectanglesFromName, toName)
    {
      ImageTaskStep(files, anns, j, g, outType, rootUrl, rectanglesFromName, toName);
    }
  }

  /** Record `j` adds its item to the task of its own image and leaves the others alone. */
  lemma {:induction false} ImageTaskStep(files: seq<VocFile>, anns: seq<Annotation>, j: nat, g: nat,
                                         outType: string, rootUrl: string, rectanglesFromName: string, toName: string)
    requires g < |files| && files[g].Parsed? && j < |anns| && SizedAnnotations(anns[..j + 1])
    ensures SizedAnnotations(anns[..j]) && SizedAnnotation(anns[j])
    ensures |ImageTask(files, anns, j, g, outType, rootUrl, rectanglesFromName, toName).entries| > 0
    ensures ImageTask(files, anns, j + 1, g, outType, rootUrl, rectanglesFromName, toName)
            == if anns[j].imageId == g
               then AppendResult(ImageTask(files, anns, j, g, outType, rootUrl, rectanglesFromName, toName),
                                 ItemFor(anns[j], rectanglesFromName, toName))
               else ImageTask(files, anns, j, g, outType, rootUrl, rectanglesFromName, toName)
  {
    ItemsStep(anns, j, g, rectanglesFromName, toName);
    assert anns[..j + 1][j] == anns[j];
    var t0 := NewTask(outType, rootUrl, files[g].doc.filename);
    var prev := ItemsFor(WithImageId(anns[..j], g), rectanglesFromName, toName);
    var item := ItemFor(anns[j], rectanglesFromName, toName);
    if anns[j].imageId == g {
      AppendToResult(t0, prev, item);
      assert ImageTask(files, anns, j + 1, g, outType, rootUrl, rectanglesFromName, toName)
             == WithResult(t0, prev + [item]);
    } else {
      assert ImageTask(files, anns, j + 1, g, outType, rootUrl, rectanglesFromName, toName)
             == WithResult(t0, prev + []);
      assert prev + [] == prev;
    }
  }

  /** Replacing one value of a dictionary keyed by `0 .. n-1` gives the dictionary that
      agrees with it everywhere else. */
  lemma {:induction false} UpdateKeyed(m: map<int, Task>, m': map<int, Task>, n: nat, k: int, t: Task)
    requires forall g :: g in m <==> 0 <= g < n
    requires forall g :: g in m' <==> 0 <= g < n
    requires 0 <= k < n
    requires forall g :: 0 <= g < n ==> (if g == k then t else m[g]) == m'[g]
    ensures m[k := t] == m'
  {
  }

  /** Appending an item to a task's result list extends the list it was given. */
  lemma {:induction false} AppendToResult(t: Task, items: seq<ResultItem>, item: ResultItem)
    requires |t.entries| > 0
    ensures AppendResult(WithResult(t, items), item) == WithResult(t, items + [item])
  {
  }

  lemma {:induction false} WithImageIdAppend(s: seq<Annotation>, t: seq<Annotation>, id: int)
    ensures WithImageId(s + t, id) == WithImageId(s, id) + WithImageId(t, id)
    decreases |t|
  {
    if t == [] {
      assert s + t == s;
    } else {
      var t' := t[..|t| - 1];
      assert (s + t)[..|s + t| - 1] == s + t';
      WithImageIdAppend(s, t', id);
    }
  }

  lemma {:induction false} WithImageIdNone(s: seq<Annotation>, id: int)
    requires forall q :: 0 <= q < |s| ==> s[q].imageId != id
    ensures WithImageId(s, id) == []
    decreases |s|
  {
    if s != [] {
      WithImageIdNone(s[..|s| - 1], id);
    }
  }

  lemma {:induction false} WithImageIdAll(s: seq<Annotation>, id: int)
    requires forall q :: 0 <= q < |s| ==> s[q].imageId == id
    ensures WithImageId(s, id) == s
    decreases |s|
  {
    if s != [] {
      WithImageIdAll(s[..|s| - 1], id);
      assert s == s[..|s| - 1] + [s[|s| - 1]];
    }
  }

  /** Selecting image `g` from the flattened records gives back file `g`'s records. */
  lemma {:induction false} WithImageIdFlat(files: seq<VocFile>, g: int)
    requires 0 <= g < |files|
    ensures WithImageId(FlatAnnotations(files), g) == FileAnnotations(files[g], g)
    decreases |files|
  {
    var n := |files| - 1;
    var init := files[..n];
    var prev, last := FlatAnnotations(init), FileAnnotations(files[n], n);
    assert FlatAnnotations(files) == prev + last;
    assert forall q :: 0 <= q < |prev| ==> prev[q].imageId < n by {
      forall q | 0 <= q < |prev| ensures prev[q].imageId < n {
        assert FromFile(prev[q], init);
      }
    }
    WithImageIdAppend(prev, last, g);
    if g == n {
      WithImageIdNone(prev, g);
      WithImageIdAll(last, g);
    } else {
      WithImageIdFlat(init, g);
      WithImageIdNone(last, g);
    }
  }

  /** The records of a prefix of the files are a prefix of all records. */
  lemma {:induction false} FlatPrefix(files: seq<VocFile>, m: nat)
    requires m <= |files|
    ensures |FlatAnnotations(files[..m])| <= |FlatAnnotations(files)|
    ensures forall q :: 0 <= q < |FlatAnnotations(files[..m])| ==>
              FlatAnnotations(files)[q] == FlatAnnotations(files[..m])[q]
    decreases |files|
  {
    if m == |files| {
      assert files[..m] == files;
    } else {
      var init := files[..|files| - 1];
      assert init[..m] == files[..m];
      FlatPrefix(init, m);
    }
  }

  /** A file that seeds a task has a record, and it comes before every record of a
      later file. */
  lemma {:induction false} FileRecord(files: seq<VocFile>, g: nat) returns (q: nat)
    requires g < |files| && files[g].Parsed? && files[g].doc.objects != []
    ensures q < |FlatAnnotations(files)| && FlatAnnotations(files)[q].imageId == g
    ensures forall p :: 0 <= p < |FlatAnnotations(files)| && g < FlatAnnotations(files)[p].imageId ==> q < p
  {
    var pre := files[..g + 1];
    var flat, flatPre := FlatAnnotations(files), FlatAnnotations(pre);
    assert pre[..g] == files[..g] && pre[g] == files[g];
    FlatPrefix(files, g + 1);
    q := |flatPre| - 1;
    assert flatPre[q].imageId == g;
    forall p | 0 <= p <= q ensures flat[p].imageId <= g {
      assert flat[p] == flatPre[p] && FromFile(flatPre[p], pre);
    }
  }

  /** When the records before position `j` all have a non-zero image size, so do the
      files before the one record `j` was read from. */
  lemma {:induction false} FirstUnsizedFile(files: seq<VocFile>, j: nat)
    requires SeedsBefore(files, |files|)
    requires j < |FlatAnnotations(files)|
    requires SizedAnnotations(FlatAnnotations(files)[..j])
    ensures SizedBefore(files, FlatAnnotations(files)[j].imageId)
  {
    var flat := FlatAnnotations(files);
    var f := flat[j].imageId;
    assert FromFile(flat[j], files);
    forall g | 0 <= g < f ensures files[g].doc.width != 0 && files[g].doc.height != 0 {
      var q := FileRecord(files, g);
      assert flat[..j][q] == flat[q] && FromFile(flat[q], files);
    }
  }

  /** When every record has a non-zero image size, so does every file. */
  lemma {:induction false} AllFilesSized(files: seq<VocFile>)
    requires SeedsBefore(files, |files|)
    requires SizedAnnotations(FlatAnnotations(files))
    ensures AllConvertible(files)
  {
    var flat := FlatAnnotations(files);
    forall g | 0 <= g < |files| ensures files[g].doc.width != 0 && files[g].doc.height != 0 {
      var q := FileRecord(files, g);
      assert FromFile(flat[q], files);
    }
  }

  /** After the second loop the task of image `g` is file `g`'s finished task. */
  lemma {:induction false} TasksByImage(files: seq<VocFile>, outType: string, rootUrl: string,
                                        fromName: string, toName: string)
    requires AllConvertible(files)
    requires SizedAnnotations(FlatAnnotations(files))
    ensures var flat := FlatAnnotations(files);
            flat[..|flat|] == flat &&
            ResultTasks(files, flat, |flat|, outType, rootUrl, fromName + RectangleSuffix, toName)
            == FinishedTasks(files, outType, rootUrl, fromName, toName)
  {
    var flat := FlatAnnotations(files);
    assert flat[..|flat|] == flat;
    var m := ResultTasks(files, flat, |flat|, outType, rootUrl, fromName + RectangleSuffix, toName);
    var m' := FinishedTasks(files, outType, rootUrl, fromName, toName);
    forall g | 0 <= g < |files| ensures m[g] == m'[g] {
      ImageTaskFinished(files, g, outType, rootUrl, fromName, toName);
    }
    SameKeyed(m, m', |files|);
  }

  /** Once every record has its item, image `g`'s task is file `g`'s finished task. */
  lemma {:induction false} ImageTaskFinished(files: seq<VocFile>, g: nat, outType: string, rootUrl: string,
                                             fromName: string, toName: string)
    requires AllConvertible(files) && g < |files|
    requires SizedAnnotations(FlatAnnotations(files))
    ensures var flat := FlatAnnotations(files);
            flat[..|flat|] == flat &&
            ImageTask(files, flat, |flat|, g, outType, rootUrl, fromName + RectangleSuffix, toName)
            == ExpectedTask(files[g].doc, g, outType, rootUrl, fromName, toName)
  {
    var flat := FlatAnnotations(files);
    assert flat[..|flat|] == flat;
    WithImageIdFlat(files, g);
  }

  /** Two dictionaries keyed by `0 .. n-1` that agree on every key are equal. */
  lemma {:induction false} SameKeyed(m: map<int, Task>, m': map<int, Task>, n: nat)
    requires forall g :: g in m <==> 0 <= g < n
    requires forall g :: g in m' <==> 0 <= g < n
    requires forall g :: 0 <= g < n ==> m[g] == m'[g]
    ensures m == m'
  {
    forall g | g in m ensures g in m' && m[g] == m'[g] {
    }
    forall g | g in m' ensures g in m {
    }
  }

  /** A dictionary keyed by exactly the image ids `0 .. n-1` has those as its key set. */
  lemma {:induction false} KeysAreRange(tasks: map<int, Task>, n: nat)
    requires forall g :: g in tasks <==> 0 <= g < n
    ensures tasks.Keys == Range(n) && |tasks| == n
  {
    assert tasks.Keys == Range(n);
  }

  /** The task list built from the sorted keys is the run's task list in file order. */
  lemma {:induction false} TaskListInOrder(files: seq<VocFile>, outType: string, rootUrl: string,
                                           fromName: string, toName: string)
    requires AllConvertible(files)
    ensures TaskList(FinishedTasks(files, outType, rootUrl, fromName, toName))
            == ExpectedTasks(files, outType, rootUrl, fromName, toName)
  {
    var tasks := FinishedTasks(files, outType, rootUrl, fromName, toName);
    KeysAreRange(tasks, |files|);
    SortedRangeKeys(|files|);
  }
}
