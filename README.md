# bssig pose control and image validation, modelled in Dafny

This project models the sequential core of bssig, a generator and validator for
synthetic space imagery that runs inside Blender:

- **Pose controller** (`src/bssig/scene_utils.py`, module `SceneUtils`). The scene is
  a `Scene` class holding a map from object name to pose (location and Euler rotation,
  each three reals). Its methods are the absolute setters, relative placement
  (`obj1 = obj2 + offset`), the random variants built on `rand_xyz`, the
  extension-checked import with its exactly-one-new-object rule, and camera framing
  (track toward a target, then perturb).
- **Per-frame pose dispatch** (`src/bssig/img_gen.py`, module `ImgGen`). One iteration
  of the render loop runs over already-parsed options: object position, then object
  rotation, then camera distance, then camera rotation, then one render. The camera is
  placed from the object's *updated* location.
- **Validation pairing** (`src/bssig/img_val.py`, modules `ImgVal` and `PathOrder`).
  This covers corpus loading (sorted paths or a random subset, and the
  index-to-basename map), standard one-to-one pairing, exhaustive best-match search
  (strict `>`, so the earliest maximum wins) and the grayscale-mode selection.
- **Argument suffix** (`src/bssig/utils.py`, module `Utils`). `get_script_args`
  returns what follows the first `"--"`.

External effects come in as parameters:

- Every `random.uniform(lo, hi)` is given as the generator's unit draw `u ∈ [0, 1]`,
  and the value is Python's own formula `lo + (hi - lo) * u`.
- `random.sample` is given as a list of distinct positions.
- Blender's importers are a function from format and path to the objects they add.
- `to_track_quat('Z', 'Y').to_euler()` and `Euler.rotate` are the two functions of a
  `Mathutils` record.
- Image decoding is a function from path to image.
- The SSIM scorer is a function of the two images and the grayscale mode. Nothing is
  assumed about it: no symmetry, no range.
- A render is a snapshot of the scene appended to `Scene.renders`.

The model follows the code as written:

- Camera perturbation uses `Euler.rotate` with three draws from the same bounds. It
  does not negate the z component.
- Random bounds are scalars shared by the three axes.
- The pose code places no sun and samples no spherical shell; positions are drawn per axis in a box.
- `import_object` fails when the import adds no object as well as when it adds
  several, although its message says "more than 1".

The loop body in `img_gen.py` is modelled as written, so its defects are failures:

- Without `--object-pos` the body fails before changing anything. Line 179 reads the
  nonexistent `args.min`; line 181 assigns `None` to a location.
- Without `--camera-rot` it fails at line 196 on the misspelt
  `args.max_camera_rot_pertub`. The first three steps have already been applied by
  then, and no render happens.

## Model

| member | source | states |
|---|---|---|
| `Utils.IndexOf` | src/bssig/utils.py:16-19 | `argv.index("--")` gives the first position holding the separator, and is None (ValueError) exactly when it is absent |
| `Utils.GetScriptArgs` | src/bssig/utils.py:12-23 | the result is always a suffix of argv; it is empty when there is no `"--"`; otherwise it is strictly shorter and starts right after the first `"--"` |
| `Utils.LaterSeparatorsKept` | src/bssig/utils.py:17-21 | a `"--"` after the first one is kept in the script's arguments |
| `Utils.ScriptArgsFollowFirstSeparator` | src/bssig/utils.py:17-21 | if position i holds the first `"--"`, the script gets exactly `argv[i+1:]` |
| `SceneUtils.Uniform` | src/bssig/scene_utils.py:93 | `random.uniform(lo, hi)` lies between lo and hi (in either order), and equals lo when lo == hi |
| `SceneUtils.UniformWithin` | src/bssig/scene_utils.py:93 | Python's `lo + (hi - lo) * u` for a unit draw lies between the bounds whichever is larger, and is lo when the bounds are equal |
| `SceneUtils.DrawXyz` | src/bssig/scene_utils.py:86-97 | `rand_xyz` yields exactly three values, each between min_val and max_val |
| `SceneUtils.RandXyz` | src/bssig/scene_utils.py:86-97 | the list built by appending three draws in a loop is `DrawXyz` of those draws |
| `SceneUtils.ImportFormat` | src/bssig/scene_utils.py:11-18 | `.obj`, `.fbx` and `.stl` select their importers, and any other ending is rejected |
| `SceneUtils.Relocated` | src/bssig/scene_utils.py:39-45 | assigning a location changes that object's location only; its rotation, all other objects and the set of names are unchanged |
| `SceneUtils.Reoriented` | src/bssig/scene_utils.py:47-53 | assigning a rotation changes that object's rotation only; everything else is unchanged |
| `SceneUtils.Scene.constructor` | src/bssig/scene_utils.py:33 | the loaded scene holds the given objects and nothing has been rendered |
| `SceneUtils.Scene.Render` | src/bssig/img_gen.py:198 | a render records the scene exactly as it is at that moment |
| `SceneUtils.Scene.ImportObject` | src/bssig/scene_utils.py:5-27 | an unknown extension fails before any import, with the scene unchanged; otherwise exactly the importer's objects are added and every object already in the scene keeps its pose; the call succeeds iff exactly one new name appeared (zero or several fail), and the returned name is the single name in the post-import set that was not in the pre-import set |
| `SceneUtils.Scene.SetObjectPos` | src/bssig/scene_utils.py:39-45 | an unknown name is a lookup error that changes nothing; otherwise only that object's location becomes xyz |
| `SceneUtils.Scene.SetObjectRot` | src/bssig/scene_utils.py:47-53 | an unknown name is a lookup error that changes nothing; otherwise only that object's rotation becomes xyz |
| `SceneUtils.Scene.SetObjectDist` | src/bssig/scene_utils.py:55-72 | obj1 is looked up before obj2, and either missing is an error that changes nothing; otherwise obj1's location becomes obj2's location plus xyz, component by component, and obj2 and every other object are unchanged |
| `SceneUtils.Scene.SetCameraDist` | src/bssig/scene_utils.py:74-78 | `SetObjectDist` with the camera (named "Camera" by default) as the object moved |
| `SceneUtils.Scene.SetCameraRot` | src/bssig/scene_utils.py:80-84 | `SetObjectRot` on the camera (named "Camera" by default) |
| `SceneUtils.Scene.RandSetObjectPos` | src/bssig/scene_utils.py:99-105 | the object's location becomes the three draws, each between the bounds; nothing else changes; an unknown name changes nothing |
| `SceneUtils.Scene.RandSetObjectRot` | src/bssig/scene_utils.py:107-113 | the object's rotation becomes the three draws, each between the bounds; nothing else changes |
| `SceneUtils.Scene.RandSetObjectDist` | src/bssig/scene_utils.py:115-121 | obj1 is placed at obj2's location plus the draws, so each component of obj1 minus obj2 lies between the bounds |
| `SceneUtils.Scene.RandSetCameraDist` | src/bssig/scene_utils.py:123-127 | the camera is placed at the target's location plus the draws, each component of the offset between the bounds |
| `SceneUtils.Scene.RandSetCameraRot` | src/bssig/scene_utils.py:129-153 | the random rotation of line 136 is overwritten: on success the camera's rotation is the tracking rotation toward the target, perturbed by draws between the perturbation bounds. It depends on neither the rotation bounds nor their draws, the camera's location never changes, and zero bounds give a zero perturbation. A missing target fails after the random rotation was written |
| `ImgGen.ObjectLocation` | src/bssig/img_gen.py:172-176 | with an empty `obj_pos_as_dist` the object goes exactly to `object_pos`; otherwise its location minus the named object's location is `object_pos` |
| `ImgGen.ObjectRotation` | src/bssig/img_gen.py:183-186 | the object's rotation is `object_rot` when given; otherwise each component lies between `min_object_rot` and `max_object_rot` |
| `ImgGen.CameraOffset` | src/bssig/img_gen.py:188-191 | the camera's offset from the object is `camera_dist` when given; otherwise each component lies between `min_camera_dist` and `max_camera_dist` |
| `ImgGen.FrameStep` | src/bssig/img_gen.py:172-198 | the body succeeds iff `object_pos` and `camera_rot` are given and every name it looks up exists. Success renders exactly once, after all four steps, and the render sees the final poses; failure never renders. The object gets the requested location and rotation. The camera sits at the object's *new* location plus the offset, with each component of camera minus object within the distance bounds when they are random, and takes the given rotation. Only the object and the camera change. A missing `object_pos`, or a name the first step cannot find, changes nothing. A missing camera fails at the third step with the object already moved and rotated; a missing `camera_rot` fails with the misspelt attribute after three steps |
| `PathOrder.LessIrreflexive` | src/bssig/img_val.py:77 | no path sorts before itself under Python's string order |
| `PathOrder.LessTransitive` | src/bssig/img_val.py:77 | Python's string order is transitive |
| `PathOrder.LessTotal` | src/bssig/img_val.py:77 | any two different paths are ordered one way or the other |
| `PathOrder.LessAsymmetric` | src/bssig/img_val.py:77 | two paths are never each before the other |
| `PathOrder.Insert` | src/bssig/img_val.py:77 | inserting into a sorted list keeps it sorted and adds exactly that path |
| `PathOrder.SortPaths` | src/bssig/img_val.py:77 | `sorted(paths)` is sorted and a permutation of its input |
| `PathOrder.SortedUnique` | src/bssig/img_val.py:77 | two sorted lists of the same paths are equal |
| `PathOrder.ListingOrderIrrelevant` | src/bssig/img_val.py:77 | two lists holding the same paths in any order sort to the same list |
| `ImgVal.FilePaths` | src/bssig/img_val.py:77 | the paths kept are exactly those of the listing's regular files |
| `ImgVal.FilePathCount` | src/bssig/img_val.py:77 | each path occurs among the kept paths as many times as the listing holds it as a regular file |
| `ImgVal.FileListingOrderIrrelevant` | src/bssig/img_val.py:77 | two listings holding the same entries in any order give the same sorted corpus |
| `ImgVal.ChosenPaths` | src/bssig/img_val.py:77-81 | without `n_rand` every file path comes back, sorted; an `n_rand` above the number of files is an error, as is a negative one; otherwise exactly `n_rand` of the files are chosen |
| `ImgVal.AllPathsSorted` | src/bssig/img_val.py:77 | without `n_rand` the chosen paths are sorted, and a path is among them iff it is a regular file of the listing |
| `ImgVal.RFind` | src/bssig/img_val.py:87 | the last position of the separator, or -1 when it is absent |
| `ImgVal.Basename` | src/bssig/img_val.py:87 | the basename is the part of the path after its last '/', and contains no '/' |
| `ImgVal.IndexNames` | src/bssig/img_val.py:87 | the mapping's keys are exactly 0..len-1, it has one entry per path, and entry i is the basename of path i |
| `ImgVal.LoadImages` | src/bssig/img_val.py:76-89 | it fails exactly when the path choice fails. Otherwise the images and the mapping have the same length, the mapping's keys are exactly 0..len-1, image i is the decoding of the i-th chosen path, and `mapping[i]` is that path's basename |
| `ImgVal.DecodeAll` | src/bssig/img_val.py:83-85 | the loop yields one image per path, image i being the decoding of path i |
| `ImgVal.IndexMapSize` | src/bssig/img_val.py:87 | a mapping keyed by exactly 0..n-1 has n entries |
| `ImgVal.CalcSsims` | src/bssig/img_val.py:91-99 | corpora of different lengths give an error and no table; otherwise row i is `(synth_map[i], ref_map[i], score(synth[i], ref[i]))`, one per index |
| `ImgVal.FirstMax` | src/bssig/img_val.py:115-120 | the position a strict-`>` scan keeps holds the maximum, and every earlier score is strictly smaller |
| `ImgVal.BestRow` | src/bssig/img_val.py:112-122 | with no reference images the row is `(name, None, 0.0)`; otherwise it names the earliest reference image of maximal score and holds that score |
| `ImgVal.BestRowIsMax` | src/bssig/img_val.py:115-120 | with at least one reference image the best row names one, and its score is at least every score it was chosen from |
| `ImgVal.BestMatch` | src/bssig/img_val.py:112-120 | the inner strict-`>` scan over the reference images, started from `(None, 0.0)`, ends with exactly `BestRow` of that image's scores |
| `ImgVal.CalcSsimsBestMatch` | src/bssig/img_val.py:108-122 | exactly one row per synthetic image; each is that image's `BestRow`, and its score is at least the score against every reference image |
| `ImgVal.GrayscaleMode` | src/bssig/img_val.py:147-154 | the synthetic operand is converted iff `--grayscale-synth`, and the reference operand iff `--grayscale-ref`: neither gives None, synth only `img1`, ref only `img2`, both `both` |
| `ImgVal.GrayModeDetermined` | src/bssig/img_val.py:147-154 | which operands are converted determines the mode, so `GrayscaleMode`'s contract fixes its result |

## Left out

- Floating point: coordinates, draws and scores are exact reals, so rounding and NaN scores are not modelled. In the source a NaN score for the first reference image is still taken, through `best_match_img is None`, and then no later score replaces it, because every `>` against NaN is false; the row names reference 0 with a NaN score. A NaN later in the scan is never taken.
- ImportObject: requires the importer to add only names the scene does not hold yet. Blender renames a new object that clashes with an existing one ("Cube.001"), so an import never replaces an object; the model does not capture that renaming itself.
- Basename: follows the POSIX path convention, splitting at '/' only; Windows paths, which also split at '\\' and after a drive letter, are not modelled.
- Blender itself: `open_mainfile`, the three importers, the renderer and the output path are external. The scene file is the constructor's argument, the importers are a function parameter, and a render is a recorded snapshot.
- `setup_scene` is not a separate operation; it is the constructor followed by `ImportObject`.
- Orientation math: `to_track_quat`, `to_euler` and `Euler.rotate` are passed-in functions, so no property of rotations themselves (such as rotating by zero being the identity) is claimed.
- Randomness: each call gets its own draws. The order in which one seeded generator hands them out, and so run-to-run reproducibility, is not modelled.
- ChosenPaths: the distinct positions of `random.sample` are a precondition on the injected choice. The contract does not state that the chosen paths are distinct.
- CalcSsims: requires both name maps to hold every index of their corpus. A KeyError from a map lacking an index is not modelled, because `main` only passes the maps `LoadImages` builds, whose keys are exactly those indices.
- CalcSsimsBestMatch: the same requirement on the name maps, for the same reason.
- FrameStep: the pose properties are stated for an imported object not named "Camera". If the object is the camera, the camera steps move the object itself.
- The render loop's header and `main` of `img_gen.py`: `len(args.num_images)` on an int, the parser that is never returned, `type='str'` and the directory setup are not modelled. Only the loop body is.
- Argument parsing, the JSON dump of the arguments, the CSV writes and `print` calls are not modelled. The `DataFrame` is a list of rows whose position is the row's index.
- The choice between `calc_ssims` and `calc_ssims_best_match` in `main` of `img_val.py` is not modelled.
- Image decoding and the SSIM scorer (`calc_ssim`) are parameters. Decoding failures are not modelled, and `calc_ssim` is not part of this model.
- `src/bssig/visualization.py` (plots), `src/bssig/filters.py` (image filters) and `utils.mkdir` (directory creation) are not part of this model.
