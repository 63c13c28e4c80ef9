/**
 * The per-image decisions of `process_obj_images` (main.cpp) and the state
 * they carry from image to image: the function-local static output size
 * that the first cropped image fixes, and the images written so far. The
 * functions here are the specification that the class in preparer.dfy
 * implements step by step.
 */
module Pipeline {
  import opened Wrappers
  import opened Geometry
  import opened Paths

  /**
   * What the external collaborators report on one loaded image: the number of
   * faces the detector finds on it, the number it finds again on the aligned
   * chip, and the landmark points the shape predictor places on the chip.
   */
  datatype Photo = Photo(faces: nat, chipFaces: nat, chipLandmarks: seq<Point>)

  /** What became of one image. */
  datatype Outcome = Processed | SkippedNoFace | SkippedMultipleFaces | SkippedReDetectFailed

  /** Width and height in pixels (OpenCV's cols and rows). */
  datatype Size = Size(width: int, height: int)

  /** A grayscale JPEG written to `path`, resized to `size`. */
  datatype SavedImage = SavedImage(path: string, size: Size)

  /**
   * What the run carries between images: the static output size (unset until
   * the first image reaches the crop) and the images written so far.
   */
  datatype State = State(canonical: Option<Size>, saved: seq<SavedImage>)

  /** The answers of `is_directory` and `create_directory` for each path. */
  datatype FileSystem = FileSystem(isDirectory: string -> bool, createDirectory: string -> bool)

  /** One entry of the data set directory: its name, whether it is a directory, and its listing. */
  datatype DataSetEntry = DataSetEntry(name: string, isDirectory: bool, files: seq<DirEntry>)

  const Start := State(None, [])

  /**
   * The skip decision: an image goes on to the crop only when the detector
   * finds exactly one face on it and then exactly one face on its chip.
   */
  function Classify(p: Photo): (o: Outcome)
    ensures o == Processed <==> p.faces == 1 && p.chipFaces == 1
    ensures o == SkippedNoFace <==> p.faces == 0
    ensures o == SkippedMultipleFaces <==> p.faces > 1
    ensures o == SkippedReDetectFailed <==> p.faces == 1 && p.chipFaces != 1
  {
    if p.faces == 0 then SkippedNoFace
    else if p.faces > 1 then SkippedMultipleFaces
    else if p.chipFaces != 1 then SkippedReDetectFailed
    else Processed
  }

  /** The source indexes landmark 24 unguarded, so the predictor must give at least 25 points. */
  predicate PredictorFits(p: Photo)
  {
    Classify(p) == Processed ==> |p.chipLandmarks| > BrowRight
  }

  ghost predicate LoaderFits(load: string -> Photo)
  {
    forall path :: PredictorFits(load(path))
  }

  /** The size of the crop taken from the chip, as OpenCV reports it. */
  function CropSize(p: Photo, measure: Corners -> Size): Size
    requires Classify(p) == Processed && PredictorFits(p)
  {
    measure(CropCorners(p.chipLandmarks))
  }

  /** Every written image has the static size, and nothing is written before it is set. */
  ghost predicate Uniform(st: State)
  {
    (st.canonical.None? ==> st.saved == []) &&
    forall k :: 0 <= k < |st.saved| ==> st.canonical == Some(st.saved[k].size)
  }

  /** The paths of the written images, in order. */
  function SavedPaths(saved: seq<SavedImage>): (ps: seq<string>)
    ensures |ps| == |saved|
  {
    seq(|saved|, k requires 0 <= k < |saved| => saved[k].path)
  }

  /**
   * One image: a skipped image changes nothing; a processed one fixes the
   * static size if it is still unset and is written, resized to that size.
   */
  function Step(st: State, dest: string, p: Photo, measure: Corners -> Size): (r: State)
    requires PredictorFits(p)
    ensures Classify(p) != Processed ==> r == st
    ensures st.canonical.Some? ==> r.canonical == st.canonical
    ensures Classify(p) == Processed ==>
      r.canonical.Some? && r.saved == st.saved + [SavedImage(dest, r.canonical.value)]
    ensures Classify(p) == Processed && st.canonical.None? ==> r.canonical == Some(CropSize(p, measure))
    ensures Uniform(st) ==> Uniform(r)
  {
    if Classify(p) != Processed then st
    else
      var size := if st.canonical.Some? then st.canonical.value else CropSize(p, measure);
      State(Some(size), st.saved + [SavedImage(dest, size)])
  }

  /** The photo of a directory entry and whether it reaches the crop. */
  predicate Processes(load: string -> Photo, f: DirEntry)
  {
    Classify(load(f.canonicalPath)) == Processed
  }

  /** The images of one subject, in listing order. */
  function Run(st: State, root: string, obj: string, files: seq<DirEntry>,
               load: string -> Photo, measure: Corners -> Size): State
    requires LoaderFits(load)
    decreases |files|
  {
    if files == [] then st
    else
      var f := files[|files| - 1];
      Step(Run(st, root, obj, files[..|files| - 1], load, measure),
           OutputPath(root, obj, f.fileName), load(f.canonicalPath), measure)
  }

  /** The output paths of the images of `files` that reach the crop, in order. */
  function ProcessedPaths(root: string, obj: string, files: seq<DirEntry>, load: string -> Photo): seq<string>
    decreases |files|
  {
    if files == [] then []
    else
      var f := files[|files| - 1];
      ProcessedPaths(root, obj, files[..|files| - 1], load) +
        (if Processes(load, f) then [OutputPath(root, obj, f.fileName)] else [])
  }

  /** Once set, the static size never changes. */
  lemma {:induction false} RunFirstWins(st: State, root: string, obj: string, files: seq<DirEntry>,
                                        load: string -> Photo, measure: Corners -> Size)
    requires LoaderFits(load)
    requires st.canonical.Some?
    ensures Run(st, root, obj, files, load, measure).canonical == st.canonical
    decreases |files|
  {
    if files != [] {
      RunFirstWins(st, root, obj, files[..|files| - 1], load, measure);
    }
  }

  /** All images written while processing a subject have the static size. */
  lemma {:induction false} RunKeepsUniform(st: State, root: string, obj: string, files: seq<DirEntry>,
                                           load: string -> Photo, measure: Corners -> Size)
    requires LoaderFits(load)
    requires Uniform(st)
    ensures Uniform(Run(st, root, obj, files, load, measure))
    decreases |files|
  {
    if files != [] {
      RunKeepsUniform(st, root, obj, files[..|files| - 1], load, measure);
    }
  }

  /** While no image has been processed the static size stays unset. */
  lemma {:induction false} RunUnsetWhileNoneProcessed(st: State, root: string, obj: string, files: seq<DirEntry>,
                                                      load: string -> Photo, measure: Corners -> Size)
    requires LoaderFits(load)
    requires st.canonical.None?
    ensures Run(st, root, obj, files, load, measure).canonical.None? <==>
      forall j :: 0 <= j < |files| ==> !Processes(load, files[j])
    decreases |files|
  {
    if files != [] {
      var init := files[..|files| - 1];
      RunUnsetWhileNoneProcessed(st, root, obj, init, load, measure);
      assert forall j :: 0 <= j < |init| ==> init[j] == files[j];
    }
  }

  /**
   * The static size is the crop size of the first image of the listing that
   * reaches the crop, provided it was unset when the subject started.
   */
  lemma {:induction false} RunSetsFromFirstProcessed(st: State, root: string, obj: string, files: seq<DirEntry>,
                                                     load: string -> Photo, measure: Corners -> Size, k: nat)
    requires LoaderFits(load)
    requires st.canonical.None?
    requires k < |files| && Processes(load, files[k])
    requires forall j :: 0 <= j < k ==> !Processes(load, files[j])
    ensures Run(st, root, obj, files, load, measure).canonical ==
      Some(CropSize(load(files[k].canonicalPath), measure))
    decreases |files|
  {
    var init := files[..|files| - 1];
    var before := Run(st, root, obj, init, load, measure);
    if k < |files| - 1 {
      RunSetsFromFirstProcessed(st, root, obj, init, load, measure, k);
    } else {
      RunUnsetWhileNoneProcessed(st, root, obj, init, load, measure);
      assert before.canonical.None?;
    }
  }

  /**
   * Exactly the images that reach the crop are written, each to its output
   * path and in listing order; skipped images write nothing.
   */
  lemma {:induction false} RunWritesProcessed(st: State, root: string, obj: string, files: seq<DirEntry>,
                                              load: string -> Photo, measure: Corners -> Size)
    requires LoaderFits(load)
    ensures SavedPaths(Run(st, root, obj, files, load, measure).saved) ==
      SavedPaths(st.saved) + ProcessedPaths(root, obj, files, load)
    decreases |files|
  {
    if files != [] {
      var init := files[..|files| - 1];
      var f := files[|files| - 1];
      var before := Run(st, root, obj, init, load, measure);
      RunWritesProcessed(st, root, obj, init, load, measure);
      if Processes(load, f) {
        var after := Run(st, root, obj, files, load, measure);
        assert after.saved == before.saved + [after.saved[|after.saved| - 1]];
        assert SavedPaths(after.saved) == SavedPaths(before.saved) + [OutputPath(root, obj, f.fileName)];
      }
    }
  }

  /**
   * A subject with three images (no face found, two faces found, one face on
   * both the image and its chip) gets exactly one output file, for the third.
   */
  lemma ThreeImageSubject(root: string, obj: string, files: seq<DirEntry>,
                          load: string -> Photo, measure: Corners -> Size)
    requires LoaderFits(load)
    requires |files| == 3
    requires load(files[0].canonicalPath).faces == 0
    requires load(files[1].canonicalPath).faces == 2
    requires load(files[2].canonicalPath).faces == 1 && load(files[2].canonicalPath).chipFaces == 1
    ensures SavedPaths(Run(Start, root, obj, files, load, measure).saved) ==
      [OutputPath(root, obj, files[2].fileName)]
  {
    RunWritesProcessed(Start, root, obj, files, load, measure);
    assert files[..2][..1] == files[..1];
    assert ProcessedPaths(root, obj, files[..1], load) == [];
    assert ProcessedPaths(root, obj, files[..2], load) == [];
  }

  /** The subject-directory guard: it is a directory already, or it can be created. */
  predicate SubjectDirReady(fs: FileSystem, dir: string)
  {
    fs.isDirectory(dir) || fs.createDirectory(dir)
  }

  /** One subject: skipped whole when its output directory is not ready. */
  function SubjectRun(st: State, root: string, obj: string, files: seq<DirEntry>, fs: FileSystem,
                      load: string -> Photo, measure: Corners -> Size): State
    requires LoaderFits(load)
  {
    if SubjectDirReady(fs, SubjectDir(root, obj)) then Run(st, root, obj, files, load, measure) else st
  }

  /**
   * Every image written for a subject lands in that subject's output
   * directory, which exists; a subject whose directory cannot be made writes
   * nothing.
   */
  lemma SubjectWritesIntoItsDirectory(st: State, root: string, obj: string, files: seq<DirEntry>, fs: FileSystem,
                                      load: string -> Photo, measure: Corners -> Size)
    requires LoaderFits(load)
    requires forall j :: 0 <= j < |files| ==> '/' !in files[j].fileName
    ensures !SubjectDirReady(fs, SubjectDir(root, obj)) ==> SubjectRun(st, root, obj, files, fs, load, measure) == st
    ensures var r := SubjectRun(st, root, obj, files, fs, load, measure);
      |st.saved| <= |r.saved| && r.saved[..|st.saved|] == st.saved &&
      (|r.saved| > |st.saved| ==> SubjectDirReady(fs, SubjectDir(root, obj))) &&
      forall k :: |st.saved| <= k < |r.saved| ==> SplitPath(r.saved[k].path).0 == SubjectDir(root, obj)
  {
    var r := SubjectRun(st, root, obj, files, fs, load, measure);
    if SubjectDirReady(fs, SubjectDir(root, obj)) {
      RunPrefix(st, root, obj, files, load, measure);
      RunWritesProcessed(st, root, obj, files, load, measure);
      var ps := ProcessedPaths(root, obj, files, load);
      ProcessedPathsInDirectory(root, obj, files, load);
      forall k | |st.saved| <= k < |r.saved|
        ensures SplitPath(r.saved[k].path).0 == SubjectDir(root, obj)
      {
        assert SavedPaths(r.saved)[k] == ps[k - |st.saved|];
        assert ps[k - |st.saved|] in ps;
        var name :| '/' !in name && ps[k - |st.saved|] == OutputPath(root, obj, name);
        OutputPathSplits(root, obj, name);
      }
    }
  }

  /** Processing a subject only appends to what was written before. */
  lemma {:induction false} RunPrefix(st: State, root: string, obj: string, files: seq<DirEntry>,
                                     load: string -> Photo, measure: Corners -> Size)
    requires LoaderFits(load)
    ensures var r := Run(st, root, obj, files, load, measure);
      |st.saved| <= |r.saved| && r.saved[..|st.saved|] == st.saved
    decreases |files|
  {
    if files != [] {
      RunPrefix(st, root, obj, files[..|files| - 1], load, measure);
    }
  }

  /** Each processed path is the output path of a file name without '/'. */
  lemma {:induction false} ProcessedPathsInDirectory(root: string, obj: string, files: seq<DirEntry>, load: string -> Photo)
    requires forall j :: 0 <= j < |files| ==> '/' !in files[j].fileName
    ensures forall q :: q in ProcessedPaths(root, obj, files, load) ==>
      exists name :: '/' !in name && q == OutputPath(root, obj, name)
    decreases |files|
  {
    if files != [] {
      ProcessedPathsInDirectory(root, obj, files[..|files| - 1], load);
    }
  }

  /** The whole data set: non-directory entries are passed over. */
  function DataSetRun(st: State, root: string, entries: seq<DataSetEntry>, fs: FileSystem,
                      load: string -> Photo, measure: Corners -> Size): State
    requires LoaderFits(load)
    decreases |entries|
  {
    if entries == [] then st
    else
      var e := entries[|entries| - 1];
      var before := DataSetRun(st, root, entries[..|entries| - 1], fs, load, measure);
      if e.isDirectory then SubjectRun(before, root, e.name, e.files, fs, load, measure) else before
  }

  /** The directory entries of a listing, in order. */
  function Directories(entries: seq<DataSetEntry>): (ds: seq<DataSetEntry>)
    ensures forall e :: e in ds ==> e in entries && e.isDirectory
    decreases |entries|
  {
    if entries == [] then []
    else
      var e := entries[|entries| - 1];
      Directories(entries[..|entries| - 1]) + (if e.isDirectory then [e] else [])
  }

  /** Entries that are not directories have no effect on the run. */
  lemma {:induction false} DataSetRunIgnoresNonDirectories(st: State, root: string, entries: seq<DataSetEntry>,
                                                           fs: FileSystem, load: string -> Photo, measure: Corners -> Size)
    requires LoaderFits(load)
    ensures DataSetRun(st, root, entries, fs, load, measure) ==
      DataSetRun(st, root, Directories(entries), fs, load, measure)
    decreases |entries|
  {
    if entries != [] {
      var init := entries[..|entries| - 1];
      var e := entries[|entries| - 1];
      DataSetRunIgnoresNonDirectories(st, root, init, fs, load, measure);
      var before := DataSetRun(st, root, init, fs, load, measure);
      var ds := Directories(entries);
      if e.isDirectory {
        assert ds == Directories(init) + [e];
        assert ds[..|ds| - 1] == Directories(init) && ds[|ds| - 1] == e;
        assert DataSetRun(st, root, ds, fs, load, measure) == SubjectRun(before, root, e.name, e.files, fs, load, measure);
      } else {
        assert ds == Directories(init);
        assert DataSetRun(st, root, entries, fs, load, measure) == before;
      }
    }
  }

  /** Across all subjects, the static size once set never changes. */
  lemma {:induction false} DataSetRunFirstWins(st: State, root: string, entries: seq<DataSetEntry>,
                                               fs: FileSystem, load: string -> Photo, measure: Corners -> Size)
    requires LoaderFits(load)
    requires st.canonical.Some?
    ensures DataSetRun(st, root, entries, fs, load, measure).canonical == st.canonical
    decreases |entries|
  {
    if entries != [] {
      var init := entries[..|entries| - 1];
      var e := entries[|entries| - 1];
      DataSetRunFirstWins(st, root, init, fs, load, measure);
      var before := DataSetRun(st, root, init, fs, load, measure);
      if e.isDirectory && SubjectDirReady(fs, SubjectDir(root, e.name)) {
        RunFirstWins(before, root, e.name, e.files, load, measure);
      }
    }
  }

  /** Every image the run writes, across all subjects, has the same size. */
  lemma {:induction false} DataSetRunKeepsUniform(st: State, root: string, entries: seq<DataSetEntry>,
                                                  fs: FileSystem, load: string -> Photo, measure: Corners -> Size)
    requires LoaderFits(load)
    requires Uniform(st)
    ensures Uniform(DataSetRun(st, root, entries, fs, load, measure))
    decreases |entries|
  {
    if entries != [] {
      var init := entries[..|entries| - 1];
      var e := entries[|entries| - 1];
      DataSetRunKeepsUniform(st, root, init, fs, load, measure);
      var before := DataSetRun(st, root, init, fs, load, measure);
      if e.isDirectory && SubjectDirReady(fs, SubjectDir(root, e.name)) {
        RunKeepsUniform(before, root, e.name, e.files, load, measure);
      }
    }
  }

  /** So any two images written in one run have identical width and height. */
  lemma SameSizeForAll(root: string, entries: seq<DataSetEntry>, fs: FileSystem,
                       load: string -> Photo, measure: Corners -> Size, i: nat, j: nat)
    requires LoaderFits(load)
    requires i < |DataSetRun(Start, root, entries, fs, load, measure).saved|
    requires j < |DataSetRun(Start, root, entries, fs, load, measure).saved|
    ensures var saved := DataSetRun(Start, root, entries, fs, load, measure).saved;
      saved[i].size == saved[j].size
  {
    DataSetRunKeepsUniform(Start, root, entries, fs, load, measure);
  }
  /**
   * The crop size of the first image of `files` that reaches the crop, if
   * any: the size that image would give the static size if it were unset.
   */
  function FirstCrop(files: seq<DirEntry>, load: string -> Photo, measure: Corners -> Size): Option<Size>
    requires LoaderFits(load)
    decreases |files|
  {
    if files == [] then None
    else
      var earlier := FirstCrop(files[..|files| - 1], load, measure);
      var f := files[|files| - 1];
      if earlier.Some? then earlier
      else if Processes(load, f) then Some(CropSize(load(f.canonicalPath), measure))
      else None
  }

  /** After a subject the static size is what it was, or else the first crop of the subject. */
  lemma {:induction false} RunCanonical(st: State, root: string, obj: string, files: seq<DirEntry>,
                                        load: string -> Photo, measure: Corners -> Size)
    requires LoaderFits(load)
    ensures Run(st, root, obj, files, load, measure).canonical ==
      if st.canonical.Some? then st.canonical else FirstCrop(files, load, measure)
    decreases |files|
  {
    if files != [] {
      RunCanonical(st, root, obj, files[..|files| - 1], load, measure);
    }
  }

  /** The first crop of two listings one after the other. */
  lemma {:induction false} FirstCropAppend(a: seq<DirEntry>, b: seq<DirEntry>,
                                           load: string -> Photo, measure: Corners -> Size)
    requires LoaderFits(load)
    ensures FirstCrop(a + b, load, measure) ==
      if FirstCrop(a, load, measure).Some? then FirstCrop(a, load, measure) else FirstCrop(b, load, measure)
    decreases |b|
  {
    if b == [] {
      assert a + b == a;
    } else {
      var init := b[..|b| - 1];
      FirstCropAppend(a, init, load, measure);
      assert (a + b)[..|a + b| - 1] == a + init;
      assert (a + b)[|a + b| - 1] == b[|b| - 1];
    }
  }

  /**
   * The images the run actually goes through, in order: the listings of the
   * directory entries whose output directory is ready.
   */
  function ReadyFiles(root: string, entries: seq<DataSetEntry>, fs: FileSystem): seq<DirEntry>
    decreases |entries|
  {
    if entries == [] then []
    else
      var e := entries[|entries| - 1];
      ReadyFiles(root, entries[..|entries| - 1], fs) +
        (if e.isDirectory && SubjectDirReady(fs, SubjectDir(root, e.name)) then e.files else [])
  }

  /** After the data set the static size is what it was, or else the first crop of the whole run. */
  lemma {:induction false} DataSetRunCanonical(st: State, root: string, entries: seq<DataSetEntry>,
                                               fs: FileSystem, load: string -> Photo, measure: Corners -> Size)
    requires LoaderFits(load)
    ensures DataSetRun(st, root, entries, fs, load, measure).canonical ==
      if st.canonical.Some? then st.canonical else FirstCrop(ReadyFiles(root, entries, fs), load, measure)
    decreases |entries|
  {
    if entries != [] {
      var init := entries[..|entries| - 1];
      var e := entries[|entries| - 1];
      DataSetRunCanonical(st, root, init, fs, load, measure);
      var before := DataSetRun(st, root, init, fs, load, measure);
      var ready := e.isDirectory && SubjectDirReady(fs, SubjectDir(root, e.name));
      var added := if ready then e.files else [];
      FirstCropAppend(ReadyFiles(root, init, fs), added, load, measure);
      if ready {
        RunCanonical(before, root, e.name, e.files, load, measure);
      } else {
        assert FirstCrop(added, load, measure) == None;
      }
    }
  }

  /**
   * From a fresh process, the static size at the end of the run, and the size
   * of every image written, is the crop size of the first image, over the
   * ready subjects in listing order, that reaches the crop.
   */
  lemma SizeOfRunIsFirstCrop(root: string, entries: seq<DataSetEntry>, fs: FileSystem,
                             load: string -> Photo, measure: Corners -> Size, k: nat)
    requires LoaderFits(load)
    requires k < |ReadyFiles(root, entries, fs)|
    requires Processes(load, ReadyFiles(root, entries, fs)[k])
    requires forall j :: 0 <= j < k ==> !Processes(load, ReadyFiles(root, entries, fs)[j])
    ensures var r := DataSetRun(Start, root, entries, fs, load, measure);
      var size := CropSize(load(ReadyFiles(root, entries, fs)[k].canonicalPath), measure);
      r.canonical == Some(size) && forall i :: 0 <= i < |r.saved| ==> r.saved[i].size == size
  {
    var files := ReadyFiles(root, entries, fs);
    DataSetRunCanonical(Start, root, entries, fs, load, measure);
    RunCanonical(Start, root, "", files, load, measure);
    RunSetsFromFirstProcessed(Start, root, "", files, load, measure, k);
    DataSetRunKeepsUniform(Start, root, entries, fs, load, measure);
  }

  /** From a fresh process, when no image of a ready subject reaches the crop, nothing is written. */
  lemma NothingWrittenWithoutCrop(root: string, entries: seq<DataSetEntry>, fs: FileSystem,
                                  load: string -> Photo, measure: Corners -> Size)
    requires LoaderFits(load)
    requires forall j :: 0 <= j < |ReadyFiles(root, entries, fs)| ==> !Processes(load, ReadyFiles(root, entries, fs)[j])
    ensures var r := DataSetRun(Start, root, entries, fs, load, measure);
      r.canonical == None && r.saved == []
  {
    var files := ReadyFiles(root, entries, fs);
    DataSetRunCanonical(Start, root, entries, fs, load, measure);
    RunCanonical(Start, root, "", files, load, measure);
    RunUnsetWhileNoneProcessed(Start, root, "", files, load, measure);
    DataSetRunKeepsUniform(Start, root, entries, fs, load, measure);
  }
}
