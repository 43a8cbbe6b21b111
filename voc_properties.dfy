/** Properties of a whole conversion run, stated over the specification functions of
    module Voc that the converter's methods are proved against. */
module VocProperties {
  import opened Wrappers
  import opened Collections
  import opened PathText
  import opened Voc

  // ------------------------------------------------------------------
  // Categories
  // ------------------------------------------------------------------

  /** Label `k` of the list is the name of node `k`. */
  lemma {:induction false} LabelsAt(objects: seq<VocObject>, k: nat)
    requires k < |objects|
    ensures Labels(objects)[k] == objects[k].name
    decreases |objects|
  {
    if k < |objects| - 1 {
      LabelsAt(objects[..|objects| - 1], k);
    }
  }

  /** A name is a label of the list exactly when some node carries it. */
  lemma LabelsNames(objects: seq<VocObject>)
    ensures forall k :: 0 <= k < |objects| ==> Labels(objects)[k] == objects[k].name
  {
    forall k | 0 <= k < |objects| ensures Labels(objects)[k] == objects[k].name {
      LabelsAt(objects, k);
    }
  }

  /** The reader's categories for one document: every node's name is listed, nothing
      else is, no name twice, and in the order the names are first met. */
  lemma FileCategoriesFirstSeen(doc: VocDocument)
    ensures var cats, labels := FileCategories(Parsed(doc)), Labels(doc.objects);
            && (forall k :: 0 <= k < |doc.objects| ==> doc.objects[k].name in cats)
            && (forall i :: 0 <= i < |cats| ==> cats[i] in labels)
            && (forall i, j :: 0 <= i < j < |cats| ==> cats[i] != cats[j])
            && (forall i, j :: 0 <= i < j < |cats| ==> FirstIndex(labels, cats[i]) < FirstIndex(labels, cats[j]))
  {
    var labels := Labels(doc.objects);
    LabelsNames(doc.objects);
    DedupElements(labels);
    DedupFirstSeenOrder(labels);
  }

  /** Categories are concatenated file by file and never merged across files: a label
      is listed once for every file whose document has a node with that name. */
  lemma {:induction false} CategoryMultiplicity(files: seq<VocFile>, x: string)
    ensures multiset(AllCategories(files))[x] == FilesWithLabel(files, x)
    decreases |files|
  {
    if files != [] {
      var init, last := files[..|files| - 1], files[|files| - 1];
      CategoryMultiplicity(init, x);
      if last.Parsed? {
        DedupCount(Labels(last.doc.objects), x);
      }
    }
  }

  /** Two files with one "cat" each give the label map {0: "cat", 1: "cat"}. */
  lemma TwoCatsListedTwice()
    ensures var d1 := VocDocument("a.jpg", 640, 480, [VocObject("cat", 1.0, 2.0, 3.0, 4.0)]);
            var d2 := VocDocument("b.jpg", 640, 480, [VocObject("cat", 5.0, 6.0, 7.0, 8.0)]);
            var files := [Parsed(d1), Parsed(d2)];
            && AllCategories(files) == ["cat", "cat"]
            && IndexMap(AllCategories(files)) == map[0 := "cat", 1 := "cat"]
  {
    var d1 := VocDocument("a.jpg", 640, 480, [VocObject("cat", 1.0, 2.0, 3.0, 4.0)]);
    var d2 := VocDocument("b.jpg", 640, 480, [VocObject("cat", 5.0, 6.0, 7.0, 8.0)]);
    OneLabel(d1);
    OneLabel(d2);
    TwoFiles(Parsed(d1), Parsed(d2));
    CatPair(AllCategories([Parsed(d1), Parsed(d2)]));
  }

  /** Two files: the first file's categories, then the second's. */
  lemma TwoFiles(f1: VocFile, f2: VocFile)
    ensures AllCategories([f1, f2]) == FileCategories(f1) + FileCategories(f2)
  {
    var files := [f1, f2];
    assert files[..1] == [f1] && [f1][..0] == [];
    assert AllCategories([f1]) == [] + FileCategories(f1);
    assert AllCategories(files) == AllCategories([f1]) + FileCategories(f2);
  }

  /** Enumerating ["cat", "cat"]. */
  lemma CatPair(cats: seq<string>)
    requires cats == ["cat"] + ["cat"]
    ensures cats == ["cat", "cat"] && IndexMap(cats) == map[0 := "cat", 1 := "cat"]
  {
    var m, expected := IndexMap(cats), map[0 := "cat", 1 := "cat"];
    forall k | k in m ensures k in expected && m[k] == expected[k] {
    }
    forall k | k in expected ensures k in m {
    }
  }

  /** A document with a single "cat" node lists the one category "cat". */
  lemma OneLabel(d: VocDocument)
    requires |d.objects| == 1 && d.objects[0].name == "cat"
    ensures FileCategories(Parsed(d)) == ["cat"]
  {
    assert d.objects[..0] == [];
    assert Labels(d.objects) == ["cat"];
    assert ["cat"][..0] == [];
  }

  // ------------------------------------------------------------------
  // Records and tasks
  // ------------------------------------------------------------------

  /** Image ids never decrease along `anns`. */
  predicate IdsAscending(anns: seq<Annotation>) {
    forall q, p :: 0 <= q <= p < |anns| ==> anns[q].imageId <= anns[p].imageId
  }

  /** The flattened records are grouped by file: image ids never decrease. */
  lemma {:induction false} FlatImageIdsAscending(files: seq<VocFile>)
    ensures IdsAscending(FlatAnnotations(files))
    decreases |files|
  {
    if files != [] {
      var n := |files| - 1;
      var init := files[..n];
      var prev, last := FlatAnnotations(init), FileAnnotations(files[n], n);
      FlatImageIdsAscending(init);
      var flat := FlatAnnotations(files);
      assert flat == prev + last;
      assert forall k :: 0 <= k < |last| ==> last[k].imageId == n by {
        if files[n].Parsed? {
          assert last == Records(files[n].doc, files[n].doc.objects, n);
        }
      }
      assert IdsAscending(prev);
      forall q, p | 0 <= q <= p < |flat| ensures flat[q].imageId <= flat[p].imageId {
        if q < |prev| {
          assert flat[q] == prev[q] && FromFile(prev[q], init);
          if p < |prev| {
            assert flat[p] == prev[p];
            assert prev[q].imageId <= prev[p].imageId;
          } else {
            assert flat[p] == last[p - |prev|];
            assert prev[q].imageId < n;
            assert flat[p].imageId == n;
          }
        } else {
          assert flat[q] == last[q - |prev|] && flat[p] == last[p - |prev|];
          assert flat[q].imageId == n && flat[p].imageId == n;
        }
      }
    }
  }

  /** Over convertible files there is a record exactly when there is a file, so the
      rectangle tag is registered exactly when the directory is not empty. */
  lemma FlatNonEmpty(files: seq<VocFile>)
    requires AllConvertible(files)
    ensures FlatAnnotations(files) != [] <==> files != []
  {
    if files != [] {
      var n := |files| - 1;
      assert |FlatAnnotations(files)| == ObjectCount(files[..n]) + |files[n].doc.objects|;
    }
  }

  /** The number of result items over a task list. */
  function ItemCount(ts: seq<Task>): nat
    decreases |ts|
  {
    if ts == [] then 0
    else
      var t := ts[|ts| - 1];
      ItemCount(ts[..|ts| - 1]) + if |t.entries| > 0 then |t.entries[0].result| else 0
  }

  /** Every record becomes exactly one item: the finished tasks hold as many items as
      the files have objects. */
  lemma {:induction false} ItemCountExpected(files: seq<VocFile>, outType: string, rootUrl: string,
                                             fromName: string, toName: string)
    requires AllConvertible(files)
    ensures ItemCount(ExpectedTasks(files, outType, rootUrl, fromName, toName)) == ObjectCount(files)
    decreases |files|
  {
    if files != [] {
      var n := |files| - 1;
      var init := files[..n];
      ExpectedTasksPrefix(files, outType, rootUrl, fromName, toName);
      ItemCountExpected(init, outType, rootUrl, fromName, toName);
      var ts := ExpectedTasks(files, outType, rootUrl, fromName, toName);
      assert |ts| - 1 == n && ts != [];
      assert ItemCount(ts) == ItemCount(ts[..n]) + |ts[n].entries[0].result|;
      assert |ts[n].entries[0].result| == |files[n].doc.objects|;
      assert ObjectCount(files) == ObjectCount(init) + |files[n].doc.objects|;
    }
  }

  /** Dropping the last file drops the last task. */
  lemma {:induction false} ExpectedTasksPrefix(files: seq<VocFile>, outType: string, rootUrl: string,
                                               fromName: string, toName: string)
    requires AllConvertible(files) && files != []
    ensures AllConvertible(files[..|files| - 1])
    ensures var ts := ExpectedTasks(files, outType, rootUrl, fromName, toName);
            ts[..|ts| - 1] == ExpectedTasks(files[..|files| - 1], outType, rootUrl, fromName, toName)
  {
    var n := |files| - 1;
    var init := files[..n];
    assert forall g :: 0 <= g < n ==> init[g] == files[g];
    var ts, tsInit := ExpectedTasks(files, outType, rootUrl, fromName, toName),
                      ExpectedTasks(init, outType, rootUrl, fromName, toName);
    forall g | 0 <= g < n ensures ts[..n][g] == tsInit[g] {
      assert init[g] == files[g];
    }
  }

  // ------------------------------------------------------------------
  // create_bbox on concrete values
  // ------------------------------------------------------------------

  /** A 100 x 50 pixel box at (10, 20) on a 200 x 100 image covers 50% x 50% at (5%, 20%). */
  lemma BboxExample()
    ensures var doc := VocDocument("img.jpg", 200, 100, [VocObject("dog", 10.0, 20.0, 110.0, 70.0)]);
            var a := AnnotationOf(doc, doc.objects[0], 0);
            var r := CreateBbox(a, "label_rectangles", 100, 200, "image");
            && r.Success?
            && r.value.value == BoxValue(5.0, 20.0, 50.0, 50.0, 0, ["dog"])
            && r.value.originalWidth == 200 && r.value.originalHeight == 100
  {
  }

  /** Corners given in the wrong order are not clamped or swapped: the extent comes out
      negative. */
  lemma NegativeExtentKept(doc: VocDocument, o: VocObject, imageId: int, fromName: string, toName: string)
    requires doc.width > 0 && doc.height > 0 && o.xmax < o.xmin
    ensures CreateBbox(AnnotationOf(doc, o, imageId), fromName, doc.height, doc.width, toName).value.value.width < 0.0
  {
    var a := AnnotationOf(doc, o, imageId);
    CreateBboxScales(a, fromName, doc.height, doc.width, toName);
    var v := CreateBbox(a, fromName, doc.height, doc.width, toName).value.value;
    assert v.width * doc.width as real < 0.0;
  }

  // ------------------------------------------------------------------
  // The label-config path
  // ------------------------------------------------------------------

  lemma JsonUnbordered()
    ensures Unbordered(JsonExtension)
  {
    var p := JsonExtension;
    forall m | 0 < m < |p| ensures p[m..] != p[..|p| - m] {
      assert p[m..][0] != p[..|p| - m][0];
    }
  }

  /** An output name ending in ".json", with no other ".json" in it, has that extension
      replaced by ".label_config.xml". */
  lemma LabelConfigOfJson(stem: string)
    requires Free(stem, JsonExtension)
    ensures LabelConfigPath(stem + JsonExtension) == stem + LabelConfigSuffix
  {
    JsonUnbordered();
    RemoveAllTrailing(stem, JsonExtension);
  }

  /** Pieces free of ".json" joined by ".json": every joint is removed and the pieces
      are kept. */
  lemma LabelConfigOfPieces(pieces: seq<string>)
    requires forall k :: 0 <= k < |pieces| ==> Free(pieces[k], JsonExtension)
    ensures LabelConfigPath(JoinedBy(pieces, JsonExtension)) == Concat(pieces) + LabelConfigSuffix
  {
    JsonJointsRemoved(pieces);
  }

  /** `str.replace(".json", "")` on ".json"-free pieces joined by ".json". */
  lemma JsonJointsRemoved(pieces: seq<string>)
    requires forall k :: 0 <= k < |pieces| ==> Free(pieces[k], JsonExtension)
    ensures RemoveAll(JoinedBy(pieces, JsonExtension), JsonExtension) == Concat(pieces)
  {
    JsonUnbordered();
    RemoveAllJoined(pieces, JsonExtension);
  }

  /** Any output name: cut at every ".json" (left to right), it consists of ".json"-free
      pieces, and its label config path is those pieces put back together without the
      ".json"s, followed by ".label_config.xml". */
  lemma LabelConfigRemovesEvery(outFile: string)
    ensures var pieces := Split(outFile, JsonExtension);
            && JoinedBy(pieces, JsonExtension) == outFile
            && (forall k :: 0 <= k < |pieces| ==> Free(pieces[k], JsonExtension))
            && LabelConfigPath(outFile) == Concat(pieces) + LabelConfigSuffix
  {
    SplitJoins(outFile, JsonExtension);
    LabelConfigOfPieces(Split(outFile, JsonExtension));
  }

  /** An output name without ".json" gets ".label_config.xml" appended. */
  lemma LabelConfigOfOther(outFile: string)
    requires Free(outFile, JsonExtension)
    ensures LabelConfigPath(outFile) == outFile + LabelConfigSuffix
  {
    RemoveAllFree(outFile, JsonExtension);
  }

  /** The default output name "output.json" writes its label config to
      "output.label_config.xml". The name is a parameter, and the literal facts sit in
      DefaultStem, so that the verifier does not unfold RemoveAll on a literal string. */
  lemma LabelConfigExample(outFile: string)
    requires outFile == "output.json"
    ensures LabelConfigPath(outFile) == "output.label_config.xml"
  {
    var stem := DefaultStem(outFile);
    LabelConfigOfJson(stem);
  }

  /** "output.json" is "output" followed by the one ".json" it contains. The stem is
      returned, not restated, so that the caller sees no literal. */
  lemma DefaultStem(outFile: string) returns (stem: string)
    requires outFile == "output.json"
    ensures Free(stem, JsonExtension) && stem + JsonExtension == outFile
    ensures stem + LabelConfigSuffix == "output.label_config.xml"
  {
    stem := "output";
    assert stem[0..5] != JsonExtension by { assert stem[0..5][0] != JsonExtension[0]; }
    assert stem[1..6] != JsonExtension by { assert stem[1..6][0] != JsonExtension[0]; }
  }
}
