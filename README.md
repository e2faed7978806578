# Clip_Tools, modelled in Dafny

Clip_Tools is a Blender add-on for the Movie Clip Editor. This project models
the logic its operators run and proves properties of that logic:

- **Set Start Seq No.** reads a frame number out of a movie clip's name with the
  pattern `[._](\d{4,})\.` and makes it the clip's start frame (`StartFrame`).
- **Create Image Plane** and **Set Cam Projection** read the first frame of an
  image sequence out of its file path with `(\d+)\.\w+$` (`PathFrame`). They then
  configure the image user of the Image Texture node: cyclic playback, a duration
  equal to the scene's frame range, the scene's start frame and the sequence's
  frame offset (`ImageUserSetup`).
- **Create Image Plane** also gives each of the plane's drivers a fixed set of
  named variables. It adds only the ones that are missing (`ImagePlaneDrivers`).
- **3D Markers to Empty** creates one empty per selected track that has a 3D
  bundle. Each empty is named `Track_NNN` after the track's one-based position,
  and all of them hang under a `Trackpoint` parent. The camera's reconstruction
  is read at the clip-relative frame (`TrackExport`).
- **Setup Camera Solver** adds a camera-solver constraint to the scene camera
  unless one is already there. **Setup Object Solver** guards itself with a
  chain of four checks, each with its own message (`SolverSetup`).

The regular expressions are modelled in two forms:

- a declarative reading of the pattern (a ghost predicate);
- the matcher as Python's `re.search` runs it: the leftmost start, greedy
  runs, then the rest of the pattern.

The two are proved to agree. The generic leftmost search is in
`LeftmostSearch`. Decimal digit strings, their values and zero padding are in
`Decimal`.

State the host updates in place is modelled as classes:

- a movie clip's start frame (`StartFrame.MovieClip`);
- an object's constraint stack and transform (`SolverSetup.SceneObject`);
- a driver's variable list (`ImagePlaneDrivers.Driver`).

Their methods are proved against specification functions (`WithCameraSolver`,
`EnsureVariables`, `ExportedNames`). Further lemmas prove what those functions
promise.

The path pattern's `$` follows Python's behaviour without `MULTILINE`: it
matches at the end of the string or just before a single final newline. So
`shot_0042.png` followed by a newline also yields 42. This is more than "word
characters up to the end of the string", and the model follows the code.

## Model

| member | source | states |
|---|---|---|
| Decimal.Value | __init__.py:226 | `int()` of a digit string: it is 0 exactly when every digit is `0`; `ZeroPad`, `Digits` and the round-trip lemmas below fix its value on the texts they build |
| Decimal.ZeroPad | __init__.py:189 | the zero-padded decimal text of `n`: only digits, exactly `max(width, number of digits of n)` of them, and it reads back as `n` |
| LeftmostSearch.Leftmost | __init__.py:224 | `re.search` start: the result is a matching position and no earlier position matches; None means no position matches |
| StartFrame.MatchesAt | __init__.py:224 | the engine's attempt at one start: separator, greedy digit run of at least four, then `.`; `MatchesAtIff` proves it accepts exactly where the declarative pattern occurs, with the group length forced |
| StartFrame.ParseStartFrame | __init__.py:224-226 | `int(match.group(1))` or None; `ParseStartFrameCorrect` proves it is Some iff the pattern occurs and gives the value of the leftmost group, `ParseFormattedName` proves the round trip |
| StartFrame.StartFrameField | __init__.py:224-226 | `match.group(1)`: when present, at least four ASCII digits |
| StartFrame.MatchesAtIff | __init__.py:224 | the greedy matcher accepts at `p` exactly when the declarative pattern `[._](\d{4,})\.` occurs at `p`; the group length is then forced |
| StartFrame.ParseStartFrameCorrect | __init__.py:224-226 | a frame number is found iff the pattern occurs somewhere in the name; it is the value of the digit group of the leftmost occurrence |
| StartFrame.FormattedNameField | __init__.py:224-226 | in `base + sep + digits + "." + ext`, where no `.`/`_` in `base` is followed by a digit, the captured group is exactly `digits` |
| StartFrame.ParseFormattedName | __init__.py:217-226 | a name written as `clip.####.ext` or `clip_####.ext` (zero-padded to four digits, `base` as above, e.g. `my_clip`) parses back to its number |
| StartFrame.ParseExampleName | __init__.py:224-226 | `my_clip.0042.png` yields 42 |
| StartFrame.MovieClip.SetStartFrameFromFilename | __init__.py:222-232 | no frame number: Cancelled and the start frame is unchanged; otherwise Finished and the start frame is the parsed number |
| PathFrame.MatchesAt | __init__.py:350 | the engine's attempt at one start: greedy digit run, `.`, greedy word run, then `$`; `MatchesAtSound` and `PatternAtUnique` prove it accepts exactly where `(\d+)\.\w+$` occurs |
| PathFrame.ParseFrameNumber | __init__.py:348-353 | `get_frame_number_from_path` (and its copy at lines 454-457); `ParseFrameNumberFound` proves it is Some iff the pattern occurs, `ParseFrameNumberValue` gives its value, `ParseFormattedPath` the round trip |
| PathFrame.FrameNumberField | __init__.py:348-353 | `match.group(1)`: when present, at least one ASCII digit |
| PathFrame.MatchesAtSound | __init__.py:350 | what the greedy matcher accepts is an occurrence of `(\d+)\.\w+$` |
| PathFrame.PatternAtUnique | __init__.py:350 | an occurrence at a given start is unique (digit and word run lengths forced) and the matcher accepts it |
| PathFrame.MatchDotIsLast | __init__.py:350 | the `.` of any match is the last `.` of the path |
| PathFrame.NoMatchNoPattern | __init__.py:350-353 | if the matcher accepts nowhere, the pattern occurs nowhere |
| PathFrame.LeftmostMatch | __init__.py:350 | the search's match is the leftmost occurrence; its digit run is not preceded by a digit and ends at the last `.` |
| PathFrame.ParseFrameNumberFound | __init__.py:348-353 | a frame number is returned iff the pattern occurs in the path |
| PathFrame.ParseFrameNumberValue | __init__.py:348-353 | the number returned is the value of the maximal digit run right before the last `.`, with word characters after it up to the end |
| PathFrame.NoMatchInBase | __init__.py:350 | in `base + digits + "." + ext` with `base` not ending in a digit, no match starts inside `base` |
| PathFrame.MatchAtDigits | __init__.py:350 | in `base + digits + "." + ext` the matcher accepts where the digits start, with the whole digit field as its run |
| PathFrame.FormattedPathField | __init__.py:348-353 | in `base + digits + "." + ext` the captured group is exactly `digits` |
| PathFrame.ParseFormattedPath | __init__.py:348-353 | a sequence path `base + zero-padded n + "." + ext` parses back to `n` |
| ImageUserSetup.FrameDuration | __init__.py:404 | playing that many frames from the scene's first frame ends exactly on its last |
| ImageUserSetup.SequenceOffset | __init__.py:405-413 | the offset is the first frame number minus one, or 0 when the path has none; never below -1 |
| ImageUserSetup.SequenceOffsetOfFormattedPath | __init__.py:405-410 | for files numbered `base + zero-padded n + "." + ext` the offset is `n - 1` |
| ImageUserSetup.ImagePlaneSource | __init__.py:437-438 | a still image becomes a sequence; any other source is kept |
| ImageUserSetup.ProjectionSource | __init__.py:462 | a still image becomes a sequence when the clip is a sequence and stays a still image otherwise; any other source is kept |
| ImageUserSetup.SourceConversionsAgree | __init__.py:437-438 | with a sequence clip both operators convert alike; with any other clip the projection keeps the loaded source; each conversion is idempotent |
| ImageUserSetup.ImagePlaneImageUser | __init__.py:400-417 | cyclic and auto-refresh always set; for a sequence or a movie the start is the scene start, the duration the scene range, and the offset comes from the path (sequence) or is 0 (movie); otherwise the frame settings are untouched |
| ImageUserSetup.ProjectionImageUser | __init__.py:472-476 | auto-refresh always set; a source that is neither sequence nor movie changes nothing else |
| ImageUserSetup.SetupsAgree | __init__.py:472-476 | for sequences and movies both operators produce the same image user; in general they differ only in the cyclic flag |
| ImageUserSetup.SetupsIdempotent | __init__.py:400-417 | configuring an image user twice equals configuring it once, for both operators |
| TrackExport.TrackName | __init__.py:189 | `Track_` followed by the one-based track number, zero-padded to exactly `max(3, its number of digits)` digits |
| TrackExport.TrackNamesDistinct | __init__.py:181-189 | two tracks get the same name iff they are the same track, and no track name equals `Trackpoint` |
| TrackExport.ExportedIndices | __init__.py:187-188 | exactly the indices of tracks with a bundle that are selected, in increasing order |
| TrackExport.ExportedNames | __init__.py:186-195 | the names requested for the created empties, in creation order; `ExportedNameIff`, `ExportedNamesDistinct` and `MarkersToEmpties` state its properties |
| TrackExport.ExportedNamesStep | __init__.py:187-195 | scanning one more track appends its name exactly when it qualifies |
| TrackExport.ExportedNameIff | __init__.py:187-195 | an empty is named after track `i` iff track `i` has a bundle and is selected |
| TrackExport.ExportedNamesExact | __init__.py:187-195 | the same for all tracks at once |
| TrackExport.ExportedNamesDistinct | __init__.py:181-211 | the created empties have pairwise distinct names, none is `Trackpoint`, and none is created iff no track qualifies |
| TrackExport.MarkersToEmpties | __init__.py:160-214 | no tracking object, or no qualifying track: Cancelled and nothing is left in the scene; otherwise Finished, having requested `Trackpoint` and one empty per qualifying track, in track order |
| TrackExport.RelativeFrame | __init__.py:175 | converting back to a scene frame gives the current frame; the clip's start frame is relative frame 1 |
| TrackExport.RelativeFrameRoundTrip | __init__.py:175 | scene to relative frame and back is the identity |
| TrackExport.ReconstructionFrame | __init__.py:172-176 | a frame is looked up iff there is a camera and a valid reconstruction, and it maps back to the current scene frame |
| SolverSetup.CountCameraSolvers | __init__.py:78-81 | zero iff the stack holds no camera solver; never more than the stack's length |
| SolverSetup.WithCameraSolver | __init__.py:78-88 | the old stack is kept as a prefix; one camera solver bound to the clip, not following the active clip, is appended iff none was present; a camera solver is present afterwards |
| SolverSetup.CountAppend | __init__.py:83 | appending a constraint adds one to the count exactly when it is a camera solver |
| SolverSetup.CameraSolverIdempotent | __init__.py:78-88 | a second run changes nothing, whatever its clip; a stack with at most one camera solver ends with exactly one |
| SolverSetup.SceneObject.SetupCameraSolver | __init__.py:73-88 | Cancelled iff a camera solver was present; the stack becomes `WithCameraSolver` of the old one |
| SolverSetup.SceneObject.SetupObjectSolver | __init__.py:118-147 | no scene camera: Cancelled and nothing changes; otherwise an object solver for the clip, tracking object and camera is appended, and location and rotation are reset to zero |
| SolverSetup.PollObjectSolver | __init__.py:98-116 | the poll's four checks and messages in order; `PollIsFirstFailure` and `PollAllowsOnlyObjectTracks` state what it decides |
| SolverSetup.FirstFailure | __init__.py:98-116 | the index of the first failing check: it fails and all before it pass; None iff all pass |
| SolverSetup.PollIsFirstFailure | __init__.py:98-116 | the poll allows the operator iff all four checks pass; otherwise its message is that of the first failing check |
| SolverSetup.PollAllowsOnlyObjectTracks | __init__.py:106-116 | when allowed, there is an active object, a clip and an active tracking object, and that object is not named `Camera` |
| ImagePlaneDrivers.AddIfMissing | __init__.py:301-307 | the list is unchanged iff the name is taken; otherwise the variable is appended; the name is present afterwards |
| ImagePlaneDrivers.EnsureVariables | __init__.py:300-323 | the old list is a prefix; every needed name is present afterwards; each added variable is a needed one whose name was missing; distinct names stay distinct |
| ImagePlaneDrivers.EnsureVariablesAppend | __init__.py:300-323 | checking one more variable is `AddIfMissing` on the result so far |
| ImagePlaneDrivers.EnsureVariablesNoop | __init__.py:300-323 | when every needed name is present nothing is added |
| ImagePlaneDrivers.EnsureVariablesIdempotent | __init__.py:285-323 | a second setup of the same driver changes nothing |
| ImagePlaneDrivers.NeededNamesPresent | __init__.py:289-323 | after setup all ten names (`cA` … `p_y`, `depth`, `scale_y`) are present |
| ImagePlaneDrivers.Driver.SetupDriverVariables | __init__.py:285-323 | the driver's variables become `EnsureVariables` of the old list and the ten needed variables, in the operator's order |
| ImagePlaneDrivers.Driver.AddEach | __init__.py:300-307 | the loop over the property table adds the entries in order, each only if its name is missing |
| ImagePlaneDrivers.Driver.AddVariable | __init__.py:301-307 | the variables become `AddIfMissing` of the old list |

## Left out

- Host calls are not modelled. These are `bpy.ops.clip.set_scene_frames` and `bpy.ops.screen.frame_jump` (line 228), the status reports, object creation and linking, and `images.load`. The model starts from the values they produce.
- Materials and node trees are not modelled: the image-plane material (lines 369-399), the projection node group and material (lines 464-471, 477-478), and `create_projection_node_group`.
- The four driver expressions (lines 327-346) are not modelled. The drivers' variables are: each of the four drivers gets the same `setup_driver_variables` call, modelled once by `Driver.SetupDriverVariables`.
- Matrices and floating point are not modelled: the reconstructed camera matrix, `matrix_world`, and the empties' locations (lines 170-179, 192). `matrix_from_frame` returning None is part of this.
- Each empty's `size` driver and its display type (lines 191, 197-203) are not modelled.
- TrackExport.MarkersToEmpties: gives the names requested from `bpy.data.objects.new` (lines 181, 190). The host renames an object on a name collision (a second run creates `Trackpoint.001`, `Track_001.001`); that renaming is not modelled. Locations, parents and display sizes are not modelled either. When no track qualifies, the parent is taken to be removed, which assumes the `users == 1` test at line 208 holds.
- The exception paths at lines 129-145, 243-246, 418-422, 439-441 and 460-463 are not modelled. They catch failures of host calls.
- The `ValueError` branch at line 227 is not modelled. It cannot be taken: `\d` captures only Unicode decimal digits, and `int()` accepts every string of them.
- StartFrame.MovieClip.SetStartFrameFromFilename: frame numbers are unbounded integers in the model. The host stores `frame_start` as a bounded C integer with range limits and clamping, so a name such as `clip.99999999999.png` does not end with that start frame; this is not modelled.
- ImageUserSetup.SequenceOffset: likewise unbounded; the range limits and clamping of the image user's `frame_offset`, `frame_start` and `frame_duration` are not modelled.
- `\d` and `\w` are restricted to ASCII. Python's `str` patterns also accept other Unicode digits and letters.
- The polls of the other operators are not modelled (lines 70-71, 156-158, 219-221, 280-283, 446-453). Neither are the duplicate- and delete-clip operators, the panels or the registration code.
- SolverSetup.PollIsFirstFailure: a missing editor space and a space without a clip are one case (`clip == None`), as both give the same message at line 103.
