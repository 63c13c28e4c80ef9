/**
 * `process_obj_images` and the subject loop of `main` (main.cpp) as a
 * stateful object. The object stands for the running process: `canonical`
 * is the pair of function-local statics `width`/`height`, and `saved` the
 * images written so far.
 */
module Preparation {
  import opened Wrappers
  import opened Geometry
  import opened Paths
  import opened Pipeline
  import opened Cli

  /** Copies the predictor's landmark parts into a list, one by one. */
  method CollectLandmarks(parts: seq<Point>) returns (points: seq<Point>)
    ensures points == parts
  {
    points := [];
    var j := 0;
    while j < |parts|
      invariant 0 <= j <= |parts|
      invariant points == parts[..j]
    {
      points := points + [parts[j]];
      j := j + 1;
    }
  }

  /** What became of a subject: skipped whole, or the outcome of each of its images in listing order. */
  datatype SubjectOutcome = SubjectDirCreateFailed | Images(outcomes: seq<Outcome>)

  /** The outcome of each image of a listing, in order. */
  function Outcomes(files: seq<DirEntry>, load: string -> Photo): (os: seq<Outcome>)
    ensures |os| == |files|
    ensures forall i :: 0 <= i < |files| ==> os[i] == Classify(load(files[i].canonicalPath))
  {
    seq(|files|, i requires 0 <= i < |files| => Classify(load(files[i].canonicalPath)))
  }

  class Preparer {
    var canonical: Option<Size>
    var saved: seq<SavedImage>

    function Snapshot(): State
      reads this
    {
      State(canonical, saved)
    }

    /** All written images have the static size. */
    ghost predicate Valid()
      reads this
    {
      Uniform(Snapshot())
    }

    /** A fresh process: the static size is unset and nothing is written. */
    constructor ()
      ensures Valid() && Snapshot() == Start
    {
      canonical := None;
      saved := [];
    }

    /** One pass of the image loop: the two detections, the crop, the static size, the write. */
    method ProcessImage(root: string, obj: string, path: string, name: string,
                        load: string -> Photo, measure: Corners -> Size) returns (o: Outcome)
      requires LoaderFits(load) && Valid()
      modifies this
      ensures Valid()
      ensures o == Classify(load(path))
      ensures Snapshot() == Step(old(Snapshot()), OutputPath(root, obj, name), load(path), measure)
    {
      var photo := load(path);
      assert PredictorFits(photo);
      if photo.faces == 0 {
        return SkippedNoFace;
      }
      if photo.faces > 1 {
        return SkippedMultipleFaces;
      }
      if photo.chipFaces != 1 {
        return SkippedReDetectFailed;
      }
      var points := CollectLandmarks(photo.chipLandmarks);
      var corners := CropCorners(points);
      var cropped := measure(corners);
      if canonical.None? {
        canonical := Some(cropped);
      }
      saved := saved + [SavedImage(OutputPath(root, obj, name), canonical.value)];
      o := Processed;
    }

    /**
     * One subject: the output-directory guard, the path and name lists, then
     * every image in listing order.
     */
    method ProcessObjImages(root: string, obj: string, files: seq<DirEntry>, fs: FileSystem,
                            load: string -> Photo, measure: Corners -> Size) returns (result: SubjectOutcome)
      requires LoaderFits(load) && Valid()
      modifies this
      ensures Valid()
      ensures Snapshot() == SubjectRun(old(Snapshot()), root, obj, files, fs, load, measure)
      ensures result == if SubjectDirReady(fs, SubjectDir(root, obj)) then Images(Outcomes(files, load))
                        else SubjectDirCreateFailed
    {
      var dirName := SubjectDir(root, obj);
      if !fs.isDirectory(dirName) {
        if !fs.createDirectory(dirName) {
          return SubjectDirCreateFailed;
        }
      }
      var paths, names := ListImages(files);
      var outcomes := [];
      var i := 0;
      while i < |paths|
        invariant 0 <= i <= |paths|
        invariant Valid()
        invariant Snapshot() == Run(old(Snapshot()), root, obj, files[..i], load, measure)
        invariant outcomes == Outcomes(files[..i], load)
      {
        var o := ProcessImage(root, obj, paths[i], names[i], load, measure);
        assert files[..i + 1][..i] == files[..i];
        outcomes := outcomes + [o];
        i := i + 1;
      }
      assert files[..|files|] == files;
      result := Images(outcomes);
    }

    /** Every entry of the data set directory that is a directory, in listing order. */
    method ProcessDataSet(root: string, entries: seq<DataSetEntry>, fs: FileSystem,
                          load: string -> Photo, measure: Corners -> Size)
      requires LoaderFits(load) && Valid()
      modifies this
      ensures Valid()
      ensures Snapshot() == DataSetRun(old(Snapshot()), root, entries, fs, load, measure)
    {
      var i := 0;
      while i < |entries|
        invariant 0 <= i <= |entries|
        invariant Valid()
        invariant Snapshot() == DataSetRun(old(Snapshot()), root, entries[..i], fs, load, measure)
      {
        var e := entries[i];
        assert entries[..i + 1][..i] == entries[..i];
        if e.isDirectory {
          var _ := ProcessObjImages(root, e.name, e.files, fs, load, measure);
        }
        i := i + 1;
      }
      assert entries[..|entries|] == entries;
    }

    /**
     * The program: check the argument count, parse, then process the listing
     * of the data set directory (`listDir` stands for the directory iterator).
     */
    method Prepare(argv: seq<string>, toInt: string -> int, listDir: string -> seq<DataSetEntry>,
                   fs: FileSystem, load: string -> Photo, measure: Corners -> Size) returns (code: int)
      requires LoaderFits(load) && Valid()
      modifies this
      ensures Valid()
      ensures code == ExitCode(ParseArgs(argv, toInt))
      ensures code == -1 <==> |argv| != ArgCount
      ensures code == -1 ==> Snapshot() == old(Snapshot())
      ensures code == 0 ==>
        Snapshot() == DataSetRun(old(Snapshot()), argv[3], listDir(argv[2]), fs, load, measure)
    {
      var parsed := ParseArgs(argv, toInt);
      if parsed.Failure? {
        return -1;
      }
      var opts := parsed.value;
      ProcessDataSet(opts.processedDir, listDir(opts.dataSetDir), fs, load, measure);
      code := 0;
    }
  }
}
