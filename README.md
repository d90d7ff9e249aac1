# sensor_visualization_toolbox — a Dafny model

This project models the core of `sensor_visualization_toolbox`, a small Python
toolbox that draws sensor data on camera images:

- **types** — `CameraInfo` (intrinsic matrix and distortion),
  `RigidTransformation` (a pose with three lazily computed, cached derived
  forms), `Object3D` (an oriented 3-D box with its eight corners, built from
  KITTI label lines) and `Dataset` (label names with one colour each).
- **camera visualization** — `CameraVisualizationHandler` projects the eight
  corners of each box and joins them by twelve lines in the label's colour.
- **LiDAR-camera visualization** — `LidarCameraVisualizationHandler` keeps
  the points in front of the sensor, projects them, keeps those whose pixel
  falls inside the image, and draws a filled disk per kept point coloured by
  its distance along x.
- **convert_kitti_bin_to_pcd** — reads a KITTI `.bin` scan as 16-byte records
  of four floats, splits the columns into positions and scaled intensity,
  and names the output file.

Modules: `Common` (errors, `Result`, points, pixels, matrices, the projection
of a point sequence), `Drawing` (an `Image` class that records the drawing
calls made on it, in order), `Types`, `CameraVisualization`,
`LidarCameraVisualization` and `ConvertKittiBinToPcd`.

Except as listed under "## Left out", every Python exception the core can
raise (a failed `assert`, an `IndexError`, a failed reshape, `float()`
rejecting a field, a short record for `struct.unpack`) is an `Err` of the
`Common.Error` datatype.
Objects that the Python code updates in place are Dafny classes:
- `RigidTransformation` has its three caches as mutable fields.
- `Image` has its drawing log as a mutable field.
- The visualization handlers and `Object3D` are classes whose fields are set
  once.

Foreign numeric routines are parameters or `const` fields of function type:
- `cv2.Rodrigues`;
- `cv2.RQDecomp3x3` with `np.deg2rad`;
- `cv2.projectPoints` with the `astype(int)` cast (`Common.Projector`);
- `np.cos` and `np.sin`;
- `float()`;
- the seeded random colour draw;
- the `jet` colormap;
- the float32 decoding of four bytes.

The model states what the toolbox does with their results.

## Model

| member | source | states |
|---|---|---|
| Common.MapAll | sensor_visualization_toolbox/types.py:164 | mapping a fallible step over a list succeeds iff every element succeeds, keeps the length and order of the results, and otherwise fails with the error of an element all of whose predecessors succeeded |
| Common.MapAllFirstFailure | sensor_visualization_toolbox/types.py:164 | the first failing element decides the error of the whole list comprehension |
| Common.ProjectPoints | sensor_visualization_toolbox/camera_visualization.py:18-25 | the vectorised projection yields one pixel per input point |
| Common.ProjectPointsPointwise | sensor_visualization_toolbox/camera_visualization.py:18-25 | pixel i is the projection of point i alone, with the same pose, intrinsics and distortion |
| Drawing.Image.DrawLine | sensor_visualization_toolbox/camera_visualization.py:29-35 | `cv2.line` appends exactly one line, with its end points, colour and thickness, to what the image holds |
| Drawing.Image.DrawCircle | sensor_visualization_toolbox/lidar_camera_visualization.py:54-57 | `cv2.circle` appends exactly one disk, with its centre, radius, colour and thickness, to what the image holds |
| Types.Reshape3x3 | sensor_visualization_toolbox/types.py:22 | `reshape(3, 3)` of nine values is a 3x3 matrix with entry (i, j) equal to value 3i + j |
| Types.ReshapeThenFlatten | sensor_visualization_toolbox/types.py:22 | reshaping nine values and reading the rows back gives the same nine values |
| Types.FlattenThenReshape | sensor_visualization_toolbox/types.py:55 | every 3x3 matrix is the reshape of its nine row-major values, so reshape loses nothing |
| Types.NewCameraInfo | sensor_visualization_toolbox/types.py:20-23 | construction succeeds iff the intrinsic list has nine values and its first one is non-zero; an empty list fails on the index, a zero first value fails the assert, a wrong length fails the reshape; K is the row-major 3x3 matrix and the distortion is kept as given |
| Types.CameraInfoFromJson | sensor_visualization_toolbox/types.py:33-46 | a missing intrinsic key fails; a present but empty list fails on the index, a zero first value fails the assert, a length other than nine fails the reshape; otherwise K is the 3x3 row-major reshape of the configured list and flattens back to it; a missing distortion key gives five zeros, a present one is taken as is |
| Types.Homogeneous | sensor_visualization_toolbox/types.py:72-77 | the homogeneous form of a pose is a 4x4 matrix |
| Types.HomogeneousLayout | sensor_visualization_toolbox/types.py:74-76 | its top-left block is R, its last column holds t, and its last row is 0 0 0 1 |
| Types.HomogeneousApply | sensor_visualization_toolbox/types.py:72-77 | applied to (p, 1) the matrix gives (R p + t, 1): it is the rigid motion of the pose |
| Types.BuildTransformationMat | sensor_visualization_toolbox/types.py:73-76 | starting from the 4x4 identity and overwriting the 3x3 block and the translation column yields a fresh array holding exactly the homogeneous matrix |
| Types.RigidTransformation.constructor | sensor_visualization_toolbox/types.py:50-61 | the rotation is the 3x3 reshape of the given values, the translation is kept, and all three caches start empty |
| Types.RigidTransformation.Identity | sensor_visualization_toolbox/types.py:50-61 | the default pose is the identity rotation with zero translation, caches empty |
| Types.RigidTransformation.TransformationMat | sensor_visualization_toolbox/types.py:71-77 | the first call builds and stores the homogeneous matrix; later calls return the same stored array; the other caches are untouched |
| Types.RigidTransformation.RotationVec | sensor_visualization_toolbox/types.py:79-83 | the result is the Rodrigues vector of the rotation, and it is cached; the other caches are untouched |
| Types.RigidTransformation.Rpy | sensor_visualization_toolbox/types.py:85-89 | the result is the roll, pitch and yaw in radians of the rotation, and it is cached; the other caches are untouched |
| Types.RigidTransformation.FromJson | sensor_visualization_toolbox/types.py:91-98 | a missing rotation key or translation key fails; present values of the wrong length fail the reshape; otherwise a fresh pose whose rotation flattens back to the configured values, using the given Rodrigues and Euler-angle routines, caches empty |
| Types.RotY | sensor_visualization_toolbox/types.py:166-173 | the rotation about y is a 3x3 matrix |
| Types.RotYApply | sensor_visualization_toolbox/types.py:166-173 | it turns (x, y, z) into (c x + s z, y, -s x + c z): the y coordinate never changes |
| Types.RotYIsRotation | sensor_visualization_toolbox/types.py:166-173 | when c and s are cosine and sine of one angle, the matrix has orthonormal columns and determinant 1 |
| Types.BoxCorners | sensor_visualization_toolbox/types.py:121-144 | a box has eight corners |
| Types.RotYCorner | sensor_visualization_toolbox/types.py:121-144 | corner k is the canonical corner k rotated about y and moved by the bottom centre |
| Types.BoxFaces | sensor_visualization_toolbox/types.py:121-144 | corners 0-3 lie at the height of the bottom centre, corners 4-7 at that height minus h, and corner i+4 lies straight above corner i |
| Types.BoxBottomCenter | sensor_visualization_toolbox/types.py:121-144 | the mean of the four bottom corners is the bottom centre, for every yaw |
| Types.BoxExtents | sensor_visualization_toolbox/types.py:121-144 | for a true rotation, edge 0-1 has length w, edge 1-2 length l and edge 0-4 length h |
| Types.Object3D.constructor | sensor_visualization_toolbox/types.py:102-111 | the box keeps its pose, extents and label, its rotation is the rotation about y by the yaw, and its eight corners are computed from them |
| Types.Object3D.FromKittiLabelLine | sensor_visualization_toolbox/types.py:146-157 | a box is built iff the line parses, from the parsed fields; otherwise the parse error is returned |
| Types.Object3D.FromKittiLabelFile | sensor_visualization_toolbox/types.py:159-164 | one box per line, in order, each built from its own line, iff every line parses; otherwise the first failing line's error |
| Types.Split | sensor_visualization_toolbox/types.py:148 | `split(" ")` always yields at least one field |
| Types.SplitJoin | sensor_visualization_toolbox/types.py:148 | no field contains the separator, and joining the fields with it gives back the line (empty fields kept) |
| Types.LabelIndex | sensor_visualization_toolbox/types.py:155 | the index is -1 exactly when the name is not a label; otherwise it is the first position holding the name |
| Types.ParseFloats | sensor_visualization_toolbox/types.py:149 | the conversion succeeds iff every field is a float, and then value i is the float of field i; otherwise the error is `NotAFloat` naming the first field `float()` rejects |
| Types.LabelFromFields | sensor_visualization_toolbox/types.py:149-155 | a line succeeds iff it has at least 15 fields and every field after the first is a float; height, width, length, bottom centre and yaw come from fields 8-14 and the label from field 0 |
| Types.LabelFromFieldsErrors | sensor_visualization_toolbox/types.py:149-153 | a non-numeric field after the first fails the float conversion, with the error naming the first such field; a numeric line with fewer than 15 fields fails on the index |
| Types.NewDataset | sensor_visualization_toolbox/types.py:177-184 | no labels fails; given colours of another count fail; otherwise the labels are kept with the given colours, or with colour i drawn from the seeded generator |
| Types.Kitti | sensor_visualization_toolbox/types.py:194-197 | the KITTI preset succeeds with the seven class names and seven colours |
| Types.ParseKittiLabelLine | sensor_visualization_toolbox/types.py:148-155 | a parsed line's label is -1 or a position in the KITTI class list |
| Types.KittiLabelIndexInverse | sensor_visualization_toolbox/types.py:196 | looking up any KITTI class name gives back its own position, so the seven names are distinct |
| CameraVisualization.EdgeAt | sensor_visualization_toolbox/camera_visualization.py:28 | step e of round k joins two distinct corners: a bottom or top edge (e = 0, 1) goes to the next corner of the same face, a vertical edge (e = 2) to the corner four above |
| CameraVisualization.EdgeOrder | sensor_visualization_toolbox/camera_visualization.py:27-28 | step e of round k of the nested loop visits edge 3k + e of the fixed edge list |
| CameraVisualization.EdgesInRange | sensor_visualization_toolbox/camera_visualization.py:27-28 | twelve edges, each joining two distinct corners among the eight |
| CameraVisualization.EdgesDistinct | sensor_visualization_toolbox/camera_visualization.py:27-28 | no segment is drawn twice, in either direction |
| CameraVisualization.CornerDegree | sensor_visualization_toolbox/camera_visualization.py:27-28 | every corner is an end of exactly three edges |
| CameraVisualization.BoxFaceCycles | sensor_visualization_toolbox/camera_visualization.py:27-28 | four edges run round the bottom face 0-1-2-3-0, four round the top face 4-5-6-7-4, and four join corner i to corner i + 4 |
| CameraVisualization.BoxCommands | sensor_visualization_toolbox/camera_visualization.py:27-35 | a box is drawn as one line per edge |
| CameraVisualization.BoxCommandsFollowEdges | sensor_visualization_toolbox/camera_visualization.py:27-35 | line i joins the projected corners of edge i |
| CameraVisualization.BoxCommandsUniform | sensor_visualization_toolbox/camera_visualization.py:29-35 | every line of a box has the box's colour and thickness 2 |
| CameraVisualization.DrawBox | sensor_visualization_toolbox/camera_visualization.py:27-35 | the nested loop appends exactly the twelve lines of the box, in order |
| CameraVisualization.CameraVisualizationHandler.constructor | sensor_visualization_toolbox/camera_visualization.py:12-14 | the handler keeps the camera and the dataset |
| CameraVisualization.CameraVisualizationHandler.Drawable | sensor_visualization_toolbox/camera_visualization.py:17-33 | a box can be drawn iff its label is non-negative and indexes a colour of the dataset |
| CameraVisualization.CameraVisualizationHandler.Failure | sensor_visualization_toolbox/camera_visualization.py:17-33 | a negative label fails the assert; a label past the colour list fails on the index |
| CameraVisualization.CameraVisualizationHandler.LinesFor | sensor_visualization_toolbox/camera_visualization.py:18-35 | a drawable box yields twelve lines |
| CameraVisualization.CameraVisualizationHandler.FirstFailure | sensor_visualization_toolbox/camera_visualization.py:42-43 | the position of the first box that cannot be drawn: every box before it can be drawn, the box at it cannot |
| CameraVisualization.CameraVisualizationHandler.LinesForAll | sensor_visualization_toolbox/camera_visualization.py:39-44 | several boxes yield twelve lines each |
| CameraVisualization.CameraVisualizationHandler.LinesForAllStep | sensor_visualization_toolbox/camera_visualization.py:42-43 | drawing one more box appends exactly its lines |
| CameraVisualization.CameraVisualizationHandler.DrawObject3D | sensor_visualization_toolbox/camera_visualization.py:16-37 | success iff the label has a colour; then the image, with the twelve lines of the projected box appended; on failure the matching error and nothing drawn; the rotation vector is computed and cached once the label guard passes |
| CameraVisualization.CameraVisualizationHandler.DrawObject3Ds | sensor_visualization_toolbox/camera_visualization.py:39-44 | the boxes are drawn in list order onto one image; success iff every box can be drawn; otherwise the error of the first box that cannot, with exactly the boxes before it drawn |
| LidarCameraVisualization.FrontOfSensor | sensor_visualization_toolbox/lidar_camera_visualization.py:32 | the filter never adds points |
| LidarCameraVisualization.FrontOfSensorMembers | sensor_visualization_toolbox/lidar_camera_visualization.py:32 | a point survives iff it is in the cloud with x > 0 |
| LidarCameraVisualization.FrontOfSensorAppend | sensor_visualization_toolbox/lidar_camera_visualization.py:32 | the filter keeps the cloud's order |
| LidarCameraVisualization.KeepMask | sensor_visualization_toolbox/lidar_camera_visualization.py:44-49 | flag i is set iff pixel i lies in the image, with both bounds inclusive |
| LidarCameraVisualization.ApplyMask | sensor_visualization_toolbox/lidar_camera_visualization.py:50-51 | boolean indexing keeps as many elements as flags are set |
| LidarCameraVisualization.ApplyMaskMembers | sensor_visualization_toolbox/lidar_camera_visualization.py:50-51 | an element is kept iff some position holding it has its flag set |
| LidarCameraVisualization.MaskAligned | sensor_visualization_toolbox/lidar_camera_visualization.py:50-51 | masking the pixels and masking the points with the same mask keeps them aligned: the kept pixels are the projections of the kept points |
| Common.ProjectPointsAppend | sensor_visualization_toolbox/lidar_camera_visualization.py:34-42 | projecting one more point appends its pixel |
| LidarCameraVisualization.PyMod | sensor_visualization_toolbox/lidar_camera_visualization.py:52 | Python's float remainder by a positive modulus lies in [0, m) |
| LidarCameraVisualization.Trunc | sensor_visualization_toolbox/lidar_camera_visualization.py:52 | `int()` of a non-negative float is its floor |
| LidarCameraVisualization.Bucket | sensor_visualization_toolbox/lidar_camera_visualization.py:52 | `int(x % 20)` lies in 0..19 for every x |
| LidarCameraVisualization.ColorKey | sensor_visualization_toolbox/lidar_camera_visualization.py:52 | the colormap key `int(x % 20) / 20.0` lies in [0, 1) |
| LidarCameraVisualization.BucketIsFloorMod | sensor_visualization_toolbox/lidar_camera_visualization.py:52 | `int(x % 20)` is the integer part of x modulo 20, within 0..19, so the colormap key lies in [0, 1) |
| LidarCameraVisualization.Disks | sensor_visualization_toolbox/lidar_camera_visualization.py:54-57 | one filled disk of radius 1 per kept pixel, at that pixel, in the matching colour |
| LidarCameraVisualization.DrawDisks | sensor_visualization_toolbox/lidar_camera_visualization.py:54-57 | the drawing comprehension appends exactly those disks, in order |
| LidarCameraVisualization.LidarCameraVisualizationHandler.constructor | sensor_visualization_toolbox/lidar_camera_visualization.py:13-16 | the handler keeps the camera, the extrinsic pose and the jet colormap |
| LidarCameraVisualization.LidarCameraVisualizationHandler.Pixels | sensor_visualization_toolbox/lidar_camera_visualization.py:34-42 | one pixel per point |
| LidarCameraVisualization.LidarCameraVisualizationHandler.Kept | sensor_visualization_toolbox/lidar_camera_visualization.py:32-51 | no more points are kept than pass the front filter |
| LidarCameraVisualization.LidarCameraVisualizationHandler.Colors | sensor_visualization_toolbox/lidar_camera_visualization.py:52 | each kept point gets the jet colour of its distance key |
| LidarCameraVisualization.LidarCameraVisualizationHandler.Overlay | sensor_visualization_toolbox/lidar_camera_visualization.py:32-57 | everything the overlay draws: no more disks than points in front of the sensor |
| LidarCameraVisualization.LidarCameraVisualizationHandler.OverlayIsDisksOfKept | sensor_visualization_toolbox/lidar_camera_visualization.py:32-57 | the overlay is one disk per kept point, at that point's own pixel and in that point's own colour |
| LidarCameraVisualization.LidarCameraVisualizationHandler.KeptMembers | sensor_visualization_toolbox/lidar_camera_visualization.py:32-51 | a point is kept iff it is in the cloud, has x > 0, and its pixel lies in the image |
| LidarCameraVisualization.LidarCameraVisualizationHandler.OverlaySoundAndComplete | sensor_visualization_toolbox/lidar_camera_visualization.py:32-57 | every disk drawn belongs to such a point, and every such point gets its disk |
| LidarCameraVisualization.LidarCameraVisualizationHandler.OverlayCount | sensor_visualization_toolbox/lidar_camera_visualization.py:32-57 | at most one disk per point in front of the sensor, which are at most all the points |
| LidarCameraVisualization.LidarCameraVisualizationHandler.ProjectPointCloudOnImage | sensor_visualization_toolbox/lidar_camera_visualization.py:24-59 | an unreadable image or an empty cloud fails with nothing drawn; otherwise the same image with exactly the overlay appended, and the extrinsic rotation vector computed and cached |
| ConvertKittiBinToPcd.UnpackRecord | scripts/convert_kitti_bin_to_pcd.py:15 | a chunk unpacks iff it is 16 bytes long, into four floats read from bytes 0-3, 4-7, 8-11 and 12-15 |
| ConvertKittiBinToPcd.Records | scripts/convert_kitti_bin_to_pcd.py:9-18 | the record decoding of a whole file, chunk after chunk; its only failure is a truncated record |
| ConvertKittiBinToPcd.RecordsShape | scripts/convert_kitti_bin_to_pcd.py:9-18 | a file decodes iff its length is a multiple of 16; it then holds length / 16 records, record k unpacked from bytes 16k to 16k + 15 |
| ConvertKittiBinToPcd.Read | scripts/convert_kitti_bin_to_pcd.py:13 | `f.read(16)` yields the next 16 bytes, or all that remain when fewer do |
| ConvertKittiBinToPcd.ReadKittiBin | scripts/convert_kitti_bin_to_pcd.py:9-18 | the read loop yields exactly the record decoding of the file: success iff the length is a multiple of 16, with length / 16 records |
| ConvertKittiBinToPcd.SplitColumns | scripts/convert_kitti_bin_to_pcd.py:24-25 | no records fail on the column index; otherwise position i is (x, y, z) of record i and intensity i is its intensity times 255 |
| ConvertKittiBinToPcd.ConvertKittiBinToPcd | scripts/convert_kitti_bin_to_pcd.py:21-26 | a trailing short record fails; an empty file fails on the column index; otherwise the columns of the decoded records, one point per 16 bytes |
| ConvertKittiBinToPcd.OutputPcdPath | scripts/convert_kitti_bin_to_pcd.py:38 | the output name is the input without its last three characters, followed by "pcd" |
| ConvertKittiBinToPcd.BinBecomesPcd | scripts/convert_kitti_bin_to_pcd.py:38 | `stem.bin` becomes `stem.pcd` |
| ConvertKittiBinToPcd.OutputPcdPathIdempotent | scripts/convert_kitti_bin_to_pcd.py:38 | renaming a name the rename produced changes nothing |

## Left out

- Foreign numeric routines are left abstract: `cv2.Rodrigues`, `cv2.RQDecomp3x3`, `np.deg2rad`, `cv2.projectPoints`, `np.cos`, `np.sin`, `float()`, the float32 byte decoding and the matplotlib `jet` colormap. They are parameters, because their numerics are outside the toolbox. The model states how their results are used, not what they compute. They are total in the model, so an exception raised inside one of them is not an `Err`. For example, `cv2.projectPoints` rejects distortion coefficients of an unsupported length, and `CameraInfo.from_json` passes those through unchecked (types.py:42, camera_visualization.py:18-24); the model's projection of such a call succeeds.
- Floating point: every value is an exact real. Rounding, NaN and infinities are not modelled, nor are the float32 storage of positions and the `uint16` cast of the scaled intensity in `convert_kitti_bin_to_pcd`.
- Projection to integers: the `astype(int)` cast of projected pixels is part of the abstract projector.
- File and JSON I/O is left out. `open`, `json.load`, `readlines`, `cv2.imread`, `o3d.t.io.read_point_cloud` and `o3d.t.io.write_point_cloud` become their results, or are left out for the write:
  - a parsed configuration is a map from key to flat list of numbers;
  - a label file is its list of lines, newlines included, as `readlines` returns them;
  - an image that cannot be read is `null`;
  - a cloud that cannot be read is empty.
- The random colour generator and `np.random.seed(seed)`: colour i of a dataset without explicit colours is an abstract seeded draw. The global RNG state the seed changes is not modelled.
- The `from_json` factories of the two handlers (camera_visualization.py:46-48, lidar_camera_visualization.py:18-22) only chain the modelled `CameraInfo` and `RigidTransformation` factories. They are not modelled separately.
- The command-line scripts (`draw_object3d_on_image.py`, `visualize_lidar_camera.py`, `visualize_pcd_simple.py`, and the `argparse` part of `convert_kitti_bin_to_pcd.py`) are user interface. Only the output-name rule of the converter's `main` is modelled.
- Pixel rasterisation by `cv2.line` and `cv2.circle` is left out: an image records the drawing calls made on it, in order.
- `CameraInfo` is modelled with a flat list of intrinsic values. The code also accepts nested lists whose rows hold one value each, such as a 9x1 list, since `K[0]` then has a truth value and `reshape(3, 3)` succeeds. Those shapes are not modelled. On a nested list whose first row holds more than one value, such as a 3x3 list, `K[0] != 0` compares a whole row, and numpy raises on the ambiguous truth value. So the code does not accept every shape reshapable to 3x3.
- The default argument `rigid_trans=RigidTransformation()` is evaluated once per function, when the function is defined (camera_visualization.py:16, 40). So each of `draw_object3d` and `draw_object3ds` has its own default instance, shared by all calls of that function. Its cached rotation vector persists across those calls, and `draw_object3ds` passes its own default on to `draw_object3d`. The model takes the pose as an explicit argument. A caller modelling a default passes the same `RigidTransformation.Identity` object to every call of that function.
- `LidarCameraVisualization.LidarCameraVisualizationHandler.ProjectPointCloudOnImage`: when no point of the cloud has x > 0, the Python code passes an empty array to `cv2.projectPoints` (lidar_camera_visualization.py:34-40), which may raise. The model instead returns `Ok` with the image unchanged, because what that foreign routine does on an empty array is not part of the model.
- The jet colour is a whole `Color` value. The RGBA channel layout of the colormap's result is not modelled.
- `Types.RigidTransformation.constructor` requires nine rotation values and three translation values. The error path of a wrong shape is modelled in `FromJson`, the only place a pose is built from outside data.
- `Types.RigidTransformation.FromJson` also fails with `ReshapeFailed` when the translation does not have three values. The Python code accepts any translation. A wrong one first fails when it reaches `cv2.projectPoints` as the translation vector (camera_visualization.py:21, lidar_camera_visualization.py:37). `rotation_vec` and `rpy` still work on such a pose.
- `CameraVisualization.CameraVisualizationHandler.DrawObject3Ds` states only that the pose stays valid, not when its rotation vector becomes cached. The transformation-matrix and roll-pitch-yaw caches are outside its frame, so they cannot change.
- `Common.ProjectPoints` states only its length in its own contract. What each pixel is comes from `Common.ProjectPointsPointwise`.
- `Types.BoxCorners` states only its length in its own contract. The geometry is in `Types.RotYCorner`, `Types.BoxFaces`, `Types.BoxBottomCenter` and `Types.BoxExtents`.
