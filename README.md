# xivo camera factory and grid geometry, modelled in Dafny

Two pieces of the xivo visual-inertial odometry repository:

- **The camera-model factory** (`src/camera_manager.cpp`). `CameraManager::Create`
  fills the static slot `instance_` once. A later call returns the stored
  manager and ignores its configuration. The constructor starts `model_` as
  `Unknown`. It dispatches on the `model` name to one of ATAN ("atan" or
  "fov"), EquiDist ("equidistant"), RadTan ("radtan") or Pinhole ("pinhole").
  Any other name throws `std::invalid_argument`. On success it copies the
  intrinsics `rows_`, `cols_`, `fx_`, `fy_`, `cx_`, `cy_` and derives
  `fl_ = 0.5 * sqrt(fx² + fy²)`.
  Module `Camera` (camera.dfy):
  - `CameraManager` is a class with the instance fields.
  - `CameraManagerStatics` is a class whose field `instance: Option<CameraManager>`
    stands for the static `instance_`.
  - The pure function `VariantOf` states which variant a configuration
    selects, or which exception the constructor throws. The constructor is
    proved against it.
- **The grid generator** `grid()` (`scripts/open3d_util.py`). It emits the
  endpoints of 2·(n+1) axis-parallel segments spanning a square of side
  `size`. It swaps coordinates 1 and 2 on the `'xz'` plane, translates every
  point, and builds the line index pairs and the colour list. Module
  `Open3dUtil` (open3d_util.dfy):
  - `Grid` is a method with the source's two appending loops.
  - The conversion to a numpy array is a fresh array.
  - The column swap is an in-place `forall` update of that array.
  - The translation is a sequence comprehension.
  - The closed form `RawPoint` is the reference every point is proved
    against.

`wrappers.dfy` holds the `Option` and `Result` datatypes.

The configuration is a typed record:
- `max_iter` is optional. The source defaults it to 15.
- `k0123` is a 4-vector, as `GetVectorFromJson<number_t, 4>` returns it.

The constructor does not check for absent coefficients: `w` is read with
`asDouble`, and the vectors come from `GetVectorFromJson`, whose behaviour on
a missing key is outside this model.

## Model

| member | source | states |
|---|---|---|
| Camera.CameraManagerStatics.Create | src/camera_manager.cpp:8-13 | With an instance stored, returns it and leaves the slot unchanged, whatever `cfg` is. With the slot empty and a known name, stores a fresh manager built from `cfg` and returns it. With an unknown name, returns `invalid_argument` and the slot stays empty. Every successful return is the stored instance. |
| Camera.CameraManagerStatics.constructor | src/camera_manager.cpp:6 | `instance_` starts empty. |
| Camera.CreateTwice | src/camera_manager.cpp:8-13 | After a successful first Create, a second Create with any other configuration returns the same manager. After a failed first Create, the second one succeeds exactly when its own name is known, and then stores and returns a manager built from its own configuration. |
| Camera.CameraManager.constructor | src/camera_manager.cpp:15-56 | Stores the variant `VariantOf(cfg)` and its DIM; `model_` is never left `Unknown`. `rows_`, `cols_`, `fx_`, `fy_`, `cx_`, `cy_` equal the configured values. `fl_` is the non-negative real whose square is 0.25·(fx² + fy²). |
| Camera.VariantOf | src/camera_manager.cpp:25-47 | Success iff the name is one of atan, fov, equidistant, radtan, pinhole; otherwise `invalid_argument("invalid camera model")`. The name is among those that select the returned variant, so an unknown name never yields Pinhole. The variant carries the configured intrinsics: `w` for ATAN; `k0123` in order and `max_iter` (default 15) for EquiDist; the five radtan coefficients for RadTan; nothing else for Pinhole. |
| Camera.VariantOfConfigFor | src/camera_manager.cpp:25-44 | Every known variant is selected by some configuration: VariantOf inverts ConfigFor. |
| Camera.SameReadKeysSameVariant | src/camera_manager.cpp:17-44 | Two configurations that agree on the name, the intrinsics and the keys that name reads select the same variant; no other key matters. |
| Camera.MeanFocalUnique | src/camera_manager.cpp:55 | At most one non-negative real has square 0.25·(fx² + fy²), so `fl_` is well defined by its square. |
| Camera.MeanFocalBounds | src/camera_manager.cpp:55 | 2·`fl_` is at least \|fx\| and \|fy\| and at most \|fx\| + \|fy\|. |
| Camera.RadTanAsWritten | src/camera_manager.cpp:36-40 | The radtan branch as written reads `p01k012[0]` to `p01k012[4]`, so it needs a vector of at least five entries. |
| Camera.RadTanRequestedVectorTooShort | src/camera_manager.cpp:37-39 | A vector of the requested length 4 never satisfies RadTanAsWritten's precondition. |
| Open3dUtil.Grid | scripts/open3d_util.py:18-44 | Takes the same default arguments as the source. n = 0 raises ZeroDivisionError. n < 0 leaves the point list empty, which numpy rejects. For n > 0 there are exactly 4·(n+1) points. Point k is RawPoint k, swapped on 'xz' and then translated. There are 2·(n+1) lines `LineIndices`, each index a row of the points. The colours are `[color] * (n_points − 1)`: 2·\|lines\| − 1 entries, not one per line. |
| Open3dUtil.FirstFamilyAt | scripts/open3d_util.py:26-29 | The first loop's points 2i and 2i+1 share first coordinate −s2 + i·s. Their second coordinates are −s2 and +s2. |
| Open3dUtil.SecondFamilyAt | scripts/open3d_util.py:30-33 | The second loop's points 2(n+1)+2i and 2(n+1)+2i+1 share second coordinate −s2 + i·s. Their first coordinates are −s2 and +s2. |
| Open3dUtil.RawPointOnPlane | scripts/open3d_util.py:28-33 | Before the swap, every point's third coordinate is `plane_offset`. |
| Open3dUtil.OuterSegments | scripts/open3d_util.py:22-29 | The first segment of a family sits at −s2 and the last at +s2, since n·(size/n) = size. |
| Open3dUtil.OffsetInSquare | scripts/open3d_util.py:22-33 | For size ≥ 0 every segment coordinate −s2 + i·s, 0 ≤ i ≤ n, lies in [−s2, s2]. |
| Open3dUtil.LineIsSegment | scripts/open3d_util.py:26-42 | Line j joins points 2j and 2j+1. For j ≤ n these are the endpoints of the first-family segment j. Otherwise they are the endpoints of second-family segment j − (n+1). The two endpoints lie at −s2 and +s2 across the square. |
| Open3dUtil.PlacedInSquare | scripts/open3d_util.py:22-39 | For size ≥ 0, every placed point lies in the square of side `size` centred on `translate`, and offset by `plane_offset` from `translate` along the plane's normal. The normal is coordinate 2 on any plane but 'xz', and coordinate 1 on 'xz'. |
| Open3dUtil.OrientInvolution | scripts/open3d_util.py:36-37 | Applying the plane swap twice gives back the original row. |
| Open3dUtil.OrientedGridPlane | scripts/open3d_util.py:28-37 | On 'xz' every point has coordinate 1 equal to `plane_offset`, and coordinate 2 holds the raw second coordinate. On any other plane coordinate 2 equals `plane_offset`. |
| Open3dUtil.PairsFrom | scripts/open3d_util.py:42 | `[[i, i+1] for i in range(start, stop, 2)]` has ⌈(stop − start)/2⌉ entries, and entry j is (start + 2j, start + 2j + 1). |
| Open3dUtil.LineIndices | scripts/open3d_util.py:41-42 | For n_points rows there are ⌊n_points/2⌋ lines. Line j is (2j, 2j+1), with both indices in [0, n_points). |
| Open3dUtil.Repeat | scripts/open3d_util.py:43 | `[color] * count` has max(count, 0) entries, all equal to `color`. |

## Findings

| source | as written | input that shows it | evidently intended | confidence | as-written member | corrected member |
|---|---|---|---|---|---|---|
| src/camera_manager.cpp:37-39 | The radtan branch asks `GetVectorFromJson<number_t, 4>` for `p01k012` and then reads `p01k012[4]`, one past the end of a 4-vector | any configuration with `"model": "radtan"` | request five coefficients (`GetVectorFromJson<number_t, 5>`), as RadTan takes p0, p1, k0, k1, k2 | high that the read is out of bounds; not executed | Camera.RadTanAsWritten, Camera.RadTanRequestedVectorTooShort | Camera.VariantOf (reads a 5-vector; used by Camera.CameraManager.constructor) |

## Left out

- Camera.CameraManager.constructor: `fl_` is kept by its square (`flSq`) and is not computed. `std::sqrt` has no real counterpart here, and IEEE rounding is not modelled.
- Camera.CameraManager.constructor: requires a known model name. The throw is modelled in `CameraManagerStatics.Create`, which checks `VariantOf` before constructing. The C++ throw happens before `instance_` is assigned and before anything else is observable, so the two orders agree.
- The numeric values of `ATAN::DIM`, `EquiDist::DIM`, `RadTan::DIM` and `Pinhole::DIM`: they are in camera headers that are not part of this model, so `Dim` names them symbolically. Its four constructors are distinct, but no contract relies on that, and the model does not claim that the four C++ constants differ.
- Project, UnProject and the Jacobians of the camera variants: they are in headers that are not part of this model.
- JSON semantics: the defaults of `asInt`/`asDouble` on missing keys and the internals of `GetVectorFromJson`. The configuration is already typed. The 32-bit range of `rows` and `cols` is not modelled either.
- The observation that `fl_ = 0.5·sqrt(fx² + fy²)` equals f/√2, not f, when fx = fy = f. This follows from MeanFocalUnique, but the intended formula is not clear, so it is not recorded as a finding.
- `src/app/vio.cpp`: gflags and JSON loading, image reads, the output stream, the SIGINT handler, the keypress task and the viewer. It is I/O and concurrency around an estimator that is not part of this model.
- `scripts/plot_map.py`: file globbing, `np.loadtxt` and Open3D rendering.
- `update_points`, `set_line`, `get_extrinsics`, `set_initial_view` and `init_vis` in `scripts/open3d_util.py`: wrappers over Open3D objects.
- Floating point: Python floats and the C++ `number_t` fields are exact reals. OuterSegments holds only over exact reals. With size = 1 and n = 49, `49*(1/49)` is 0.9999999999999999 in IEEE double, so the last segment sits just below +s2.
- `list(color)` is evaluated once, and every entry of `colors` is that same list object, a copy of `color` but not `color` itself. With `Vec3` values the model does not capture this aliasing.
- Non-3-vector `translate` or `color` arguments, and numpy broadcasting beyond the 3-vector case.
