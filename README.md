# Cascade scene generator, modelled in Dafny

Cascade turns a plain-text scene file into an HTML page where every box is a
CSS 3D object. The scene file is line-oriented:

- blank lines and lines starting with `#` are ignored;
- `camera x y z rx ry rz` sets the viewpoint;
- `box x y z sx sy sz a ax ay az c1 … c6` adds a box with a position, a size, an
  axis-angle rotation (angle first) and six face colours.

For each box the generator writes a container `div` holding six face `div`s,
plus a style block. The style block holds:

- the box's size;
- its transform relative to the camera;
- the animation duration (frames at 60 per second) and one keyframe stop per
  keyframe;
- the width, height, offset, turn, depth and background of each face.

The project models the three core files of the generator:

- `vectors` (`vector.dfy`): the `Vector` array type of `generator/vector.ts`,
  as a class over an `array<real>`.
  - The constructor fills its slots in a loop.
  - `scale` and the `x`/`y`/`z` setters overwrite slots in place.
  - `add` returns a fresh vector.
- `geometry` (`geometry.dfy`): `generator/geometry.ts`.
  - `Box` construction with its one-colour broadcast.
  - `toHtml` as a tree of class-tagged `div`s.
  - `toCss` as a record of the numbers it writes, not as text.
  - `Plane`, which always fails, and `Camera`.
- `projects` (`project.dfy`): `generator/project.ts`.
  - `Project` is a class with `shapes` and `camera` fields.
  - `ParseShapesFile` is a loop over the lines of the file that updates the
    camera and accumulates shapes. It is proved equal to the pure pass
    `ScanLines`, and the properties are proved about that pass.
  - `Generate` is a loop accumulating markup and styles. It is proved equal to
    the pure `Generated`.
- `text.dfy` models the three JavaScript string operations the parser uses:
  `split` on one character, `trim`, and `toLowerCase`.
- `wrappers.dfy` holds `Option` and `Result`.

Modelling choices:

- `parseFloat` is a parameter, `parseNumber: string -> real`, fixed when a
  `Project` is made.
- Numbers are exact `real`s.
- The text of a file is a parameter of `Projects.Open`, which stands for
  `new Project(fileName)`.

The parser reads a line in three steps:

1. It trims the line.
2. It skips the line if the result is empty or starts with `#`.
3. Otherwise it lowers the line and splits it on `' '`. The first token is the
   record's kind.

`Projects.Classify` is that reading. The pass over a file works on
`Lines(content)`, the lines read this way.

Behaviour the model follows, as the code has it:

- A file with no camera record fails with `MissingCamera`. There is no default
  camera.
- A `plane` record fails the whole parse, just as an unknown kind does.
- `toCss` always writes the animation rule and the keyframes block, even for a
  box without keyframes.
- Keyframe percentages are not merged or deduplicated. No remapping of axes
  happens anywhere in these files.
- The sample box line in the format comment (generator/project.ts:114) has sixteen tokens, with three rotation numbers. The check for seventeen tokens (generator/project.ts:71) rejects it with `InvalidBox`, and `Projects.ParseBox` does the same.
- A camera record is applied to `this.camera` as soon as it is read. A parse
  that fails later leaves the camera it reached, and `ParseShapesFile` states
  this.

## Model

| member | source | states |
|---|---|---|
| Text.TrimStart | generator/project.ts:22 | the result is a suffix of the input; every dropped character is whitespace; the result does not start with whitespace |
| Text.TrimEnd | generator/project.ts:22 | the result is a prefix of the input; every dropped character is whitespace; the result does not end with whitespace |
| Text.Trim | generator/project.ts:22 | the trimmed line is no longer than the line and neither starts nor ends with whitespace |
| Text.TrimEmptyIff | generator/project.ts:22-27 | a line trims to `""` exactly when every character is whitespace |
| Text.TrimIdempotent | generator/project.ts:22 | trimming twice is trimming once |
| Text.Lower | generator/project.ts:34 | lowering keeps the length and maps every character through the ASCII lowering |
| Text.LowerIdempotent | generator/project.ts:34 | lowering is idempotent and leaves no upper-case ASCII letter |
| Text.Split | generator/project.ts:21 | a split always has at least one piece |
| Text.JoinSplit | generator/project.ts:21 | joining the pieces with the separator gives back the input, so nothing is lost |
| Text.SplitPiecesExcludeSeparator | generator/project.ts:34 | no piece contains the separator |
| Text.SplitWithoutSeparator | generator/project.ts:34 | text without the separator splits to itself alone |
| Vectors.Zeros | generator/vector.ts:5-6 | `n` slots, all zero (the holes of `new Array(n)`) |
| Vectors.Sum | generator/vector.ts:16-18 | the receiver's length, element i the sum of both elements i |
| Vectors.SumProperties | generator/vector.ts:16-18 | adding the zero vector changes nothing; addition of equal-length vectors commutes |
| Vectors.Scaled | generator/vector.ts:20-23 | slots 0, 1, 2 are multiplied by 100; every later slot is unchanged; the length is kept |
| Vectors.Vector.Elements | generator/vector.ts:3 | the slots, as many as the array holds |
| Vectors.Vector.constructor | generator/vector.ts:4-14 | one argument gives that many zero slots; any other count gives exactly the arguments, slot i = args[i] |
| Vectors.Vector.OfElements | generator/vector.ts:17 | the vector `map` builds holds exactly the given values |
| Vectors.Vector.Add | generator/vector.ts:16-18 | a fresh vector holding `Sum` of both operands; neither operand changes |
| Vectors.Vector.Scale | generator/vector.ts:20-26 | the slots become `Scaled` of the old slots, in place, and the receiver itself is returned |
| Vectors.Vector.X | generator/vector.ts:28-30 | the x getter reads slot 0 |
| Vectors.Vector.Y | generator/vector.ts:32-34 | the y getter reads slot 1 |
| Vectors.Vector.Z | generator/vector.ts:36-38 | the z getter reads slot 2 |
| Vectors.Vector.SetX | generator/vector.ts:40-42 | only slot 0 changes, to the new value, which the getter then returns |
| Vectors.Vector.SetY | generator/vector.ts:44-46 | only slot 1 changes, to the new value, which the getter then returns |
| Vectors.Vector.SetZ | generator/vector.ts:48-50 | only slot 2 changes, to the new value, which the getter then returns |
| Geometry.NewBox | generator/geometry.ts:23-55 | fields as given; a single colour becomes six copies; any other list is kept unchanged, whatever its length |
| Geometry.NewBoxHasSixColors | generator/geometry.ts:40-51 | given one or six colours, the box has six |
| Geometry.BoxToHtml | generator/geometry.ts:57-67 | one `box_<index>` container with exactly six children, each tagged `box_face_<index>` and with its face name, in the order front, back, right, left, top, bottom |
| Geometry.MarkupNamesEachFaceOnce | generator/geometry.ts:60-65 | every face is named by a child, and the six children are distinct |
| Geometry.MarkupClassesCarryIndex | generator/geometry.ts:57-67 | every class in a box's markup carries its index, so boxes with different indices share no class |
| Geometry.PlacementOf | generator/geometry.ts:94-97 | each translate plus the camera position is the element's centre; the rotation axis is rot[1..3] and the angle rot[0] |
| Geometry.PlacementIsCameraRelative | generator/geometry.ts:94-96 | moving element and camera by the same vector leaves the transform unchanged |
| Geometry.Percent | generator/geometry.ts:74 | the percent is the floor of the exact `frame / totalFrames * 100`: no greater than it and more than it minus one |
| Geometry.PercentIsQuotient | generator/geometry.ts:74 | the model's exact percent equals the integer quotient `(100*frame) div totalFrames` |
| Geometry.PercentInRange | generator/geometry.ts:74 | for 0 <= frame <= totalFrames the percent lies in [0, 100], and it is 100 at the last frame |
| Geometry.PercentMonotone | generator/geometry.ts:74 | later frames never get a smaller percent |
| Geometry.StopOf | generator/geometry.ts:72-84 | a keyframe's stop: a percent in [0, 100] for frames in [0, totalFrames]; each translate plus the camera position is the keyframe's centre `loc + scale/2`; axis rot[1..3] and angle rot[0] |
| Geometry.ColorSlot | generator/geometry.ts:133-150 | each face reads one of the six colour slots |
| Geometry.ColorSlotIsBijective | generator/geometry.ts:133-150 | front 0, left 1, back 2, right 3, top 4, bottom 5: distinct faces read distinct slots, and every slot is read |
| Geometry.ColorAt | generator/geometry.ts:134 | a colour exactly when the list is long enough, and then the listed one |
| Geometry.BoxToCss | generator/geometry.ts:70-153 | index, width and height from the box; the placement; duration times 60 is totalFrames; one stop per keyframe, in order, with its percent and placement; six face rules in the order written |
| Geometry.StopsWithinLoop | generator/geometry.ts:71-86 | no stop is dropped or merged; with frames in [0, totalFrames] every percent is in [0, 100], in order when the frames are |
| Geometry.FaceGeometry | generator/geometry.ts:113-150 | front/back are size.x by size.y; left/right size.z by size.y, centred across x; top/bottom size.x by size.z, centred across y; each is pushed out by half the extent across it and painted from the table; each turns by its own angle (front 0, right 90, back 180, left -90 about y; top 90, bottom -90 about x) |
| Geometry.FaceStyleOf | generator/geometry.ts:113-150 | the rule names its face and paints it from the colour table; front/back get neither offset and turn about y; left/right get a left offset and turn about y; top/bottom get a top offset and turn about x; the turn is front 0, right 90, back 180, left -90 (about y), top 90, bottom -90 (about x) |
| Geometry.SingleColorPaintsEveryFace | generator/geometry.ts:40-48 | a box built from one colour paints all six faces with it |
| Geometry.CameraRotationUnused | generator/geometry.ts:70-153 | two cameras at the same position give the same styles; the camera rotation is never read |
| Geometry.ShapeToHtml | generator/geometry.ts:57-67 | succeeds exactly for a box, with its markup; a plane fails with NotImplemented |
| Geometry.ShapeToCss | generator/geometry.ts:156-164 | succeeds exactly for a box, with its styles; a plane fails with NotImplemented |
| Projects.IsSkipped | generator/project.ts:22-32 | an all-whitespace line (an empty one included) is skipped, and so is a line whose first character is `#` |
| Projects.Tokens | generator/project.ts:34 | a record has at least one token |
| Projects.Numbers | generator/project.ts:66 | element k is `parseFloat` of token `from + k` |
| Projects.CameraRecord | generator/project.ts:61-68 | succeeds exactly with seven tokens, position from tokens 1..3 and rotation from 4..6; otherwise InvalidCamera with the tokens |
| Projects.ParseBox | generator/project.ts:70-81 | succeeds exactly with seventeen tokens, with: the index; position 1..3, size 4..6, rotation 7..10 (angle first); six colours from tokens 11..16; no keyframes; a well-formed box. Otherwise InvalidBox |
| Projects.Classify | generator/project.ts:22-34 | a line is skipped exactly when it trims to empty or starts with `#`; otherwise it is a record holding its tokens |
| Projects.ClassifyTrimmed | generator/project.ts:22-34 | reading a line is trim, the two skip tests, then lower and split |
| Projects.ClassifyAll | generator/project.ts:21 | one classified line per line of the text |
| Projects.ClassifyAllAt | generator/project.ts:21-34 | classified line k is line k of the text, classified |
| Projects.ScanTextUnfold | generator/project.ts:21-52 | the pass from line i on is the step on line i followed by the pass from line i + 1 |
| Projects.Dispatch | generator/project.ts:36-49 | the switch succeeds exactly for a seven-token camera or a seventeen-token box, and then moves the index on by one |
| Projects.Step | generator/project.ts:22-51 | a skipped line changes nothing; a step that succeeds moves the index on by one for a record and by zero for a skipped line |
| Projects.ScanLines | generator/project.ts:21-52 | the index grows by at most the number of lines and never shrinks; an error needs a line to come from |
| Projects.Parse | generator/project.ts:17-52 | the index stays non-negative; the empty file reads to no shapes, the given camera and no error |
| Projects.Outcome | generator/project.ts:54-58 | shapes exactly when no record failed and a camera was seen; the first error when one occurred; MissingCamera when none occurred and no camera was seen |
| Projects.Records | generator/project.ts:24-32 | no more lines than the input, each a record |
| Projects.RecordsIsFilter | generator/project.ts:24-32 | `Records` keeps a lone record, drops a lone skipped line and distributes over concatenation, so it is the filter of the record lines, order kept |
| Projects.RecordKept | generator/project.ts:24-34 | every record line is kept, at the position given by the number of records before it |
| Projects.BoxesOf | generator/project.ts:40-51 | the reference list of expected shapes: at most one per line, each a box |
| Projects.BoxOfLine | generator/project.ts:40-42 | a line contributes a box exactly when it is a seventeen-token box record, and that box carries the running index |
| Projects.SkippedLineIsIgnored | generator/project.ts:24-32 | a blank or comment line leaves shapes, camera and index unchanged |
| Projects.StepAdvances | generator/project.ts:36-51 | an accepted record moves the index on by exactly one and adds at most its own box, at the end |
| Projects.CameraLineOverwrites | generator/project.ts:37-39 | a valid camera line replaces the camera, adds no shape and moves the index on |
| Projects.BoxLineAppends | generator/project.ts:40-42 | a valid box line appends its box, tagged with the running index, and moves the index on |
| Projects.BadRecordFails | generator/project.ts:36-48 | a record fails exactly when its kind is not camera or box or its token count is wrong; a plane fails with PlaneNotImplemented |
| Projects.ScanSkipsNonRecords | generator/project.ts:24-32 | the pass over all lines equals the pass over the records alone |
| Projects.ScanCountsRecords | generator/project.ts:19-51 | the index never decreases; shapes are only appended; after a full pass the index has grown by the number of records, camera records included |
| Projects.BoxIndexCountsEarlierRecords | generator/project.ts:19-51 | the box of record line k carries as its index the number of records before line k, and it is among the shapes returned |
| Projects.StepShapes | generator/project.ts:36-51 | a step that succeeds appends exactly the box of its line, if any |
| Projects.ScanShapes | generator/project.ts:18-52 | a pass that gets through every line returns the starting shapes followed by exactly `BoxesOf` the lines: the box records' boxes, in file order, and nothing else |
| Projects.ParsedShapesAreBoxRecords | generator/project.ts:17-58 | the shapes of a successful parse are exactly `BoxesOf` the file's lines from index 0 |
| Projects.ScanSplitAt | generator/project.ts:21 | a pass that gets through every line gets through the first k and continues from the state they reach |
| Projects.FirstBoxKept | generator/project.ts:40-41 | the box of a first box line is kept to the end of a successful pass |
| Projects.ScanAppend | generator/project.ts:21-52 | a file read in two parts reads the second from where the first left off; a failing first part fails the whole |
| Projects.BadRecordFailsFile | generator/project.ts:43-48 | a record of any kind other than camera or box fails the pass wherever it stands |
| Projects.CameraNeedsCameraLine | generator/project.ts:37-39 | without a camera record the camera stays as it was |
| Projects.MissingCameraFails | generator/project.ts:54-56 | a file without camera records fails: no default camera; when no record failed the error is MissingCamera |
| Projects.CameraKept | generator/project.ts:36-51 | once a camera is set, no later line of the pass takes it away |
| Projects.CameraLineSuffices | generator/project.ts:37-39 | a pass that gets through every line and meets a camera record ends with a camera |
| Projects.CameraLineParses | generator/project.ts:54-58 | a file with a camera record and no failing record parses to its shapes, so it is never rejected for a missing camera |
| Projects.StepKeepsGoodState | generator/project.ts:36-51 | each step keeps boxes well-formed, six-coloured, with indices strictly increasing and below the running index |
| Projects.ScanKeepsGoodState | generator/project.ts:21-52 | the pass keeps that invariant |
| Projects.ParsedIndicesUnique | generator/project.ts:19-51 | after a successful parse the box indices strictly increase in file order and are unique |
| Projects.RenderOne | generator/project.ts:97-99 | one shape renders exactly when it is a box and there is a camera, to its markup and its styles; a plane fails with NotImplemented; a box with no camera fails with NoCamera |
| Projects.Render | generator/project.ts:97-100 | a successful render gives one markup and one style per shape; a plane as the last shape fails it |
| Projects.Generated | generator/project.ts:87-106 | generation succeeds exactly when rendering does, with one `scene` container holding one child per shape and one style per shape; no shapes give an empty scene |
| Projects.RenderBoxes | generator/project.ts:97-100 | with a camera and only boxes, rendering succeeds and item i is box i's markup and styles |
| Projects.RenderFailureIsFinal | generator/project.ts:97-100 | once a prefix fails, the whole list fails with the same error |
| Projects.RenderFailsOnPlane | generator/project.ts:97-98 | any plane among the shapes makes generation fail |
| Projects.ParsedSceneGenerates | generator/project.ts:87-106 | a parsed scene always generates: one box container and one style per shape, in file order, inside the scene container; style i is box i's `toCss` for the parsed camera |
| Projects.Project.Empty | generator/project.ts:4-5 | no shapes and no camera before a file is read |
| Projects.Project.ParseCamera | generator/project.ts:61-68 | with seven tokens the camera is replaced by the record's; otherwise InvalidCamera and the camera is unchanged |
| Projects.Project.ReadRecord | generator/project.ts:36-49 | the switch: the same outcome, shapes and camera as `Dispatch`, and an accepted record moves the index on |
| Projects.Project.ReadLine | generator/project.ts:22-51 | one turn of the loop: the same outcome, shapes, index and camera as `Step` on the classified line |
| Projects.Project.ParseShapesFile | generator/project.ts:17-59 | the result and new camera are those of the pure pass `Parse` over the file |
| Projects.Project.Generate | generator/project.ts:87-106 | the result is `Generated` of the shapes and camera |
| Projects.Open | generator/project.ts:7-11 | succeeds exactly when the parse does, with a fresh project holding the parsed shapes and camera; a failure carries exactly the error the parse throws |

## Left out

- Reading the file (`loadShapesFile`, Deno I/O), the command line, and the HTML page template are I/O. `Projects.Open` takes the text of the file instead.
- The exact CSS and HTML text, including whitespace and how numbers print, is left out. Both outputs are structured values.
- `parseFloat` is left out: it is the parameter `parseNumber`, and its results are exact reals. IEEE rounding, NaN and Infinity are not modelled.
- `Camera.toCss` (generator/geometry.ts:175-188) is a constant string, so it is not modelled.
- `parsePlane` is never called, so it is not modelled.
- The Blender scripts and `generator/main.ts` are not part of this model.
- Text.Trim: the whitespace set is a fixed list (the ASCII spaces, U+00A0, U+FEFF, U+2028, U+2029). The other Unicode space separators JavaScript also trims are not included.
- Text.Lower: lowers only ASCII letters. JavaScript's full Unicode case mapping is not modelled.
- Vectors.Vector.constructor: a single-argument vector's holes read as 0, where JavaScript has `undefined`. A length that is not a valid array length is a RangeError in JavaScript and is excluded by the precondition.
- Vectors.Vector.Scale: a vector shorter than three slots is excluded. JavaScript would grow it with NaN slots.
- Vectors.Vector.X, Y, Z and SetX, SetY, SetZ: need the slot to exist. JavaScript reads `undefined` or grows the array.
- Vectors.Vector.Add: requires the other vector to be at least as long. JavaScript would add `undefined` and produce NaN.
- Geometry.StopOf: requires totalFrames > 0 whenever there are keyframes, through `WellFormedBox`. Dividing by zero frames in JavaScript gives NaN or Infinity.
- Projects.ParseBox, Projects.CameraRecord: the source passes loose numbers to the vector-taking `Box` and `Camera` constructors. The model follows the evident intent, grouping tokens 1..3, 4..6 and 7..10 (angle first) into vectors.
- Geometry.PercentIsQuotient: the model's percent is the floor of the exact quotient. JavaScript computes `frame / totalFrames * 100` in IEEE doubles. There, 29/100 gives 28.999999999999996, which floors to 28. The model gives 29. The same happens for 29/50, 57/100 and 58/100. The range [0, 100] and the monotonicity (`PercentInRange`, `PercentMonotone`) still hold for the double computation, since correctly rounded division and multiplication are monotone and exact at 1.
- Box and Camera keep the vectors they are given (generator/geometry.ts:36-38, 171-172), so in JavaScript a later change through the same `Vector` would show in them. The model stores `seq<real>` copies, and the `Vector` class is not connected to `Box` or `Camera`. Aliasing is not modelled.
- Parsed boxes have no keyframes and a frame count of 0, because the scene format carries none.
- Projects.RenderOne: the `this.camera!` of `generate`, reached with no camera, fails when a box reads its position. The model reports this failure as `NoCamera`.
- Projects.Project.Generate: requires every box to be well-formed and any camera to have three position slots. Parsed projects always meet this, as `ParsedSceneGenerates` shows.
- Exceptions are modelled as `Err` values of `Result`. The message texts are kept only as the error's payload (the tokens, or the unknown kind).
