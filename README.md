# prepare_data_set, modelled in Dafny

`prepare_data_set` turns a directory tree of labelled face photos (one
directory per subject) into a training set: for every image it detects a
single face, aligns it into a chip, detects the face again on the chip, places
68 landmarks on it, crops a rectangle bounded by the jaw and brow landmarks,
resizes that crop to the size of the first crop of the run, converts it to
grayscale and writes it to `<output root>/<subject>/<file name>`.

This project models the decision and geometry code of `process_obj_images`
and the bookkeeping around it in `main`:

- `geometry.dfy` (module `Geometry`): the crop-corner builder. Landmark 4 and
  12 (jaw) give the bottom corners, levelled to the lower of the two (larger
  y); landmarks 19 and 24 (brows) give the heights of the top corners,
  levelled to the higher of the two (smaller y). Landmarks 0, 16, 5 and 11 are
  read and dropped, as in the source.
- `paths.dfy` (module `Paths`): the subject output directory, the output file
  path, splitting a path back into directory and name, and the two
  index-aligned lists of image paths and names.
- `pipeline.dfy` (module `Pipeline`): the skip decision, and the run as pure
  functions over a `State` (the static output size and the images written):
  one image (`Step`), one subject (`Run`, `SubjectRun`), the data set
  (`DataSetRun`), with the properties the program relies on proved by
  induction.
- `cli.dfy` (module `Cli`): the argument-count check, the integer flags and
  the exit code.
- `preparer.dfy` (module `Preparation`): class `Preparer`, the running process.
  Its field `canonical` is the function-local `static int width, height`, set
  by the first image that reaches the crop and never again; `saved` records
  the images written. Its methods follow the source's loops and `continue`s,
  and each one is proved to leave the object in the state the matching
  `Pipeline` function gives.

The external collaborators are parameters: `load: string -> Photo` stands for
loading an image and for what the face detector and the shape predictor report
on it and on its chip (two face counts and the chip's landmark points);
`measure: Corners -> Size` stands for turning the corners into a
`dlib::rectangle`, cropping the OpenCV matrix and reading its size;
`FileSystem` gives the answers of `is_directory` and `create_directory`;
`listDir` the listing of the data set directory; `toInt` the string-to-integer
conversion. `load` is fixed for the whole run, so it also stands for the chip
size and padding given on the command line (main.cpp:88-90): the model does
not trace how these two arguments shape the chip.

Where the usage message (main.cpp:225-228) asks for more, the model follows
the code: the chip size is not checked to be positive, and a flag is true for
every non-zero value, not only for 1. Every entry of a subject directory, not
only regular files, is loaded as an image.

## Model

| member | source | states |
|---|---|---|
| Geometry.CropCorners | main.cpp:137-151 | The bottom corners have the jaw x-coordinates and the y of the lower jaw point (at or below both jaw points); the top corners have the same x-coordinates and the y of the higher brow point (at or above both brow points); both edges are horizontal. |
| Geometry.CropDependsOnlyOnAnchors | main.cpp:122-151 | Two landmark lists that agree on points 4 and 12 and on the heights of points 19 and 24 give the same corners: points 0, 16, 5 and 11 do not matter. |
| Geometry.CropCornersIdempotent | main.cpp:140-151 | Feeding the computed corners back in as the jaw and brow points gives the same corners: levelling a levelled rectangle changes nothing. |
| Geometry.CropCornersExample | main.cpp:137-151 | Jaw (10,50), (90,55) and brows (20,10), (80,8) give top-left (10,8) and bottom-right (90,55). |
| Paths.SubjectDir | main.cpp:32 | The subject's output directory is the root, a "/" and the subject name; for a subject name without "/", it splits back into the root and the name. |
| Paths.OutputPath | main.cpp:209 | The output path is the subject directory of line 32 followed by "/" and the image's file name. |
| Paths.OutputPathSplits | main.cpp:32-209 | An output path splits at its last "/" into exactly the subject directory and the file name. |
| Paths.ListImages | main.cpp:46-51 | The path list and the name list have one element per directory entry, and element i of each comes from entry i. |
| Pipeline.Classify | main.cpp:71-108 | An image is processed exactly when one face is found on it and one on its chip; no face, several faces, and a failed re-detection on the chip are the three skips. |
| Pipeline.CropSize | main.cpp:171-179 | The size of the crop taken at the corners of `Geometry.CropCorners` on the chip; `Pipeline.RunSetsFromFirstProcessed` and `Pipeline.SizeOfRunIsFirstCrop` state which crop size becomes the static size. |
| Pipeline.Step | main.cpp:71-211 | A skipped image changes nothing; a processed image is written to its output path with the static size, which, if unset, it sets to its own crop size; a set static size is kept, and every written image keeps having it. |
| Pipeline.Run | main.cpp:53-212 | The image loop of one subject, one `Step` per listing entry in order; its properties are the lemmas `RunFirstWins`, `RunKeepsUniform`, `RunCanonical`, `RunUnsetWhileNoneProcessed`, `RunSetsFromFirstProcessed` and `RunWritesProcessed`. |
| Pipeline.RunFirstWins | main.cpp:177-179 | Once the static size is set, processing any further images of a subject leaves it unchanged. |
| Pipeline.RunKeepsUniform | main.cpp:177-182 | If every written image has the static size before a subject, the same holds after it. |
| Pipeline.RunUnsetWhileNoneProcessed | main.cpp:73-108 | Starting unset, the static size is still unset after a subject exactly when none of its images reached the crop. |
| Pipeline.RunCanonical | main.cpp:177-179 | After a subject the static size is what it was before, or, if it was unset, the crop size of the subject's first image that reaches the crop (none if no image does). |
| Pipeline.RunSetsFromFirstProcessed | main.cpp:177-179 | Starting unset, the static size after a subject is the crop size of its first image that reached the crop. |
| Pipeline.RunWritesProcessed | main.cpp:53-211 | The files written for a subject are exactly the output paths of its images that reach the crop, in listing order; skipped images write nothing. |
| Pipeline.ThreeImageSubject | main.cpp:73-108 | A subject with an image without a face, one with two faces and one valid image gets exactly one output file, for the valid one. |
| Pipeline.SubjectDirReady | main.cpp:33-34 | A subject goes ahead when its output directory is a directory already or, failing that, can be created; `SubjectWritesIntoItsDirectory` states what follows from it. |
| Pipeline.SubjectRun | main.cpp:28-212 | One subject: the image loop behind the directory guard; its properties are stated by `SubjectWritesIntoItsDirectory`. |
| Pipeline.SubjectWritesIntoItsDirectory | main.cpp:31-40 | A subject whose output directory is neither present nor creatable processes nothing: the whole state, static size included, is unchanged. Otherwise processing only appends, and every file it writes lies in that directory. |
| Pipeline.DataSetRun | main.cpp:261-284 | The subject loop over the data set listing, in order, passing over entries that are not directories; its properties are the `DataSetRun…` lemmas, `SizeOfRunIsFirstCrop` and `NothingWrittenWithoutCrop`. |
| Pipeline.DataSetRunIgnoresNonDirectories | main.cpp:261-284 | Running over the data set listing is the same as running over its directory entries only. |
| Pipeline.DataSetRunFirstWins | main.cpp:177-179 | Across all subjects, a set static size is never changed. |
| Pipeline.DataSetRunKeepsUniform | main.cpp:177-182 | Across all subjects, every written image has the static size. |
| Pipeline.DataSetRunCanonical | main.cpp:177-179 | After the whole data set the static size is what it was before, or, if it was unset, the crop size of the first image, over the ready subjects in listing order, that reaches the crop. |
| Pipeline.SizeOfRunIsFirstCrop | main.cpp:177-182 | From a fresh process, the final static size and the size of every written image equal the crop size of the first image of the run (over the ready subjects, in listing order) that reaches the crop. |
| Pipeline.NothingWrittenWithoutCrop | main.cpp:73-108 | From a fresh process, when no image of a ready subject reaches the crop, the static size stays unset and nothing is written. |
| Pipeline.SameSizeForAll | main.cpp:177-182 | Any two images written in one run, from a fresh process, have identical width and height. |
| Cli.FlagOf | main.cpp:240-244 | A flag is false for 0 and true for every other value, 1 included. |
| Cli.ParseArgs | main.cpp:219-244 | Any argument count other than the program name plus seven is a usage error; otherwise the paths are taken as given, the chip size is the converted fourth argument and the flags are the non-zero tests of the sixth and seventh. |
| Cli.ExitCode | main.cpp:229-294 | The exit code is -1 after a usage error (line 229) and 0 after a completed run (line 294). |
| Preparation.CollectLandmarks | main.cpp:113-117 | The collected point list equals the predictor's parts, in order. |
| Preparation.Preparer.constructor | main.cpp:178-179 | A fresh process has no static size yet and has written nothing. |
| Preparation.Preparer.ProcessImage | main.cpp:53-212 | Returns the skip decision of the image and leaves the object in the state `Pipeline.Step` gives, keeping every written image at the static size. |
| Preparation.Preparer.ProcessObjImages | main.cpp:28-212 | Skips the whole subject when its output directory is neither present nor creatable; otherwise returns each image's outcome in listing order and leaves the object in the state `Pipeline.SubjectRun` gives. |
| Preparation.Preparer.ProcessDataSet | main.cpp:258-284 | Processes the directory entries of the listing in order, leaving the object in the state `Pipeline.DataSetRun` gives. |
| Preparation.Preparer.Prepare | main.cpp:215-295 | Returns -1 and changes nothing on a wrong argument count; otherwise processes the listing of the second argument into the third and returns 0. |

## Left out

- Face detection, the shape predictor, `get_face_chip_details` and `extract_image_chip` are external: `load` gives their answers per image path.
- Pipeline.CropSize: the conversion of the corners into a `dlib::rectangle`, the OpenCV sub-matrix and its size are left abstract (`measure`), because dlib's rectangle conventions are not part of this model; what dlib and OpenCV make of a degenerate or inverted pair of corners is left unspecified: `measure` is arbitrary on such corners.
- Resizing (bicubic), grayscale conversion and JPEG encoding: a written image is recorded only by its path and its size.
- The debug windows: they only display and do not change the crop.
- The rectangle drawing (seventh argument non-zero): it paints the crop's border into the chip, and since the crop is taken from that same chip, into the saved pixels too; the corners and the size are unchanged, and pixels are not modelled.
- The file system is a fixed set of answers per path (`FileSystem`, `listDir`); `canonical` is not modelled: the canonical image paths are part of each `DirEntry`, and the output root is the third argument as given.
- Cli.ParseArgs: `std::stoi`, `std::stol` and `std::stod` are a total `toInt` with no parse errors; the padding (a double) is not kept, and the narrowing of `std::stol` to `int` is not modelled.
- Preparation.Preparer.Prepare: the model has no exception path. In the program any exception ends the whole run with -1 and nothing more is written, while the model goes on to later images and subjects. Among them: unparsable numbers, a missing output root, an unreadable model file, `directory_iterator` on a data set or subject directory that cannot be listed (a second argument that names no directory, say), `canonical` on a listed entry that does not resolve (a broken link), `load_image` on an entry that is not a readable image (a subdirectory, say), the crop when a corner lies outside the chip (a landmark with negative y, for one), `create_directory` reporting a failure by throwing rather than by returning false, and a failing write.
- Loading the landmark model and creating the detector: external, with no effect on the decisions modelled.
- Coordinates are unbounded integers; the narrowing of dlib's `long` coordinates to `int` in `max_y`/`min_y` is not modelled.
- The landmark predictor is required to give at least 25 points on every chip that reaches the crop (`LoaderFits`); the source indexes point 24 without a check.
