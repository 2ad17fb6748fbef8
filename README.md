# Beam stress fields, modelled in Dafny

This project models the `Beam` class of physics-lib. The class describes a
cantilevered beam with a rectangular cross-section. It derives the section's
second moment of area `I = base * height^3 / 12`, allocates two zero-filled
grids of `int(height/resolution)` rows by `int(length/resolution)` columns,
and fills them in place:

- the normal (bending) stress grid gets `sigma_x = -(M(x) * y) / I`, with the
  sample moment `M(x) = 0.5 * x^2 * 10`;
- the shear stress grid gets `tau_xy = -(V * Q(length, t, height/2)) / (I * height)`,
  with `V = 10`, `t = height` and `Q(l, t, p) = l * t * p`.

Cell `[row, col]` stands for the point `x = col * (length/resolution)`,
`y = row * (height/resolution)`. The source computes this as written, and the
model keeps it. Because Q is always taken at `height/2`, every shear cell gets
the same value, and the model keeps that too.

All code is in `physics_objects.dfy`, module `PhysicsObjects`:

- The pure formulas are functions over `real`: `StressInvariant`,
  `SampleMoment`, `SigmaX`, `FirstMoment`, `TauXY`, `Position` and `GridSize`.
  `SigmaX` and `TauXY` take the moment function and Q as function values, as
  the source takes them as arguments.
- `Beam` is a class. Its geometry, `I` and the grid sizes are `const` fields.
  The two grids are `array2<real>` buffers. `ComputeFullBeamSigmaX` and
  `ComputeFullBeamTauXY` are nested `while` loops that overwrite the grid
  cells one at a time. Their invariants say that every visited cell holds the
  formula value, and that every cell not yet visited still holds what it held
  before the fill. Each fill ends with its grid equal to a ghost sequence of
  rows (`SigmaXGrid`, `TauXYGrid`) computed from the geometry alone.
- Lemmas give the closed form of every grid cell and the properties that
  follow from it.

The shear value is `-(10 * length * height * (height/2)) / (I * height)`. The
first argument that the source passes to Q is `self.length`, not the height
(src/physics_objects.py:30). The model follows the code.

## Model

| member | source | states |
|---|---|---|
| PhysicsObjects.GridSize | src/physics_objects.py:16-17 | The grid size is the integer part of dimension/resolution: `n <= dimension/resolution < n + 1`, with `n >= 0` |
| PhysicsObjects.StressInvariant | src/physics_objects.py:22-23 | `12 * I == base * height^3`. I is strictly positive when base and height are positive, and zero when either one is zero |
| PhysicsObjects.SampleMoment | src/physics_objects.py:61-65 | The sample moment is never negative and is zero at the fixed end `x = 0` |
| PhysicsObjects.SigmaX | src/physics_objects.py:26-27 | `sigma * I == -(M(x) * y)`. Sigma is zero on the neutral axis `y = 0` and wherever `M(x) = 0`. For `I > 0`, sigma is negative exactly when `M(x) * y > 0` |
| PhysicsObjects.FirstMoment | src/physics_objects.py:58-59 | Q is non-negative for non-negative arguments, positive for positive ones, and zero if any argument is zero |
| PhysicsObjects.TauXY | src/physics_objects.py:29-30 | `tau * (I * height) == -(V * Q(length, t, height/2))`. Q is evaluated at `height/2`, whatever the cell. For `I * height > 0`, tau is negative exactly when `V * Q > 0` |
| PhysicsObjects.Position | src/physics_objects.py:35-36 | A cell's physical position is `index * (dimension/resolution)`. It is 0 at index 0 and non-negative for non-negative indices |
| PhysicsObjects.PositionBeyondSpan | src/physics_objects.py:35-36 | This is what the scaling convention means in practice. With `resolution < 1`, every index from 1 up maps to a point beyond the dimension it samples: x lies past the beam's end and y lies above the section |
| PhysicsObjects.DefaultDemoGeometry | src/physics_objects.py:67-68 | For the demo beam (height 0.2, base 1, length 2, default resolution 0.01), the grid has 20 rows and 200 columns, and `I = 1/1500` (about 0.000667) |
| PhysicsObjects.Beam.constructor | src/physics_objects.py:6-20 | Stores the geometry and sets `I = StressInvariant(base, height) > 0`. Sizes both grids as `floor(height/resolution)` by `floor(length/resolution)`. Allocates them fresh and distinct, and fills every cell with 0 |
| PhysicsObjects.Beam.ComputeFullBeamSigmaX | src/physics_objects.py:32-37 | Afterwards every cell `[yi, xi]` holds `SigmaX(SampleMoment, I, xi*(length/resolution), yi*(height/resolution))`. The whole grid then equals `SigmaXGrid(this)`, which depends on the geometry alone and not on what the grid held before. Only this grid changes; the shear grid, the shapes and the geometry do not |
| PhysicsObjects.Beam.ComputeFullBeamTauXY | src/physics_objects.py:39-44 | Afterwards every cell holds the same value, `TauXY(FirstMoment, I, length, height, 10, height)`, so the whole grid equals `TauXYGrid(this)` whatever it held before. Only this grid changes; the normal-stress grid, the shapes and the geometry do not |
| PhysicsObjects.SigmaXCellClosedForm | src/physics_objects.py:32-37 | Normal-stress cell `[yi, xi]` equals `-(xi^2 * yi) * K`. K is `5 * (length/resolution)^2 * (height/resolution) / I`, which is positive |
| PhysicsObjects.SigmaXZeroOnEdges | src/physics_objects.py:26-27 | Every cell in row 0 (the neutral axis) or column 0 (the fixed end) is zero |
| PhysicsObjects.SigmaXNegativeInside | src/physics_objects.py:32-37 | Every cell with `yi > 0` and `xi > 0` is strictly negative |
| PhysicsObjects.SigmaXLinearInDepth | src/physics_objects.py:32-37 | Normal stress is linear across the depth: cell `[yi, xi]` is `yi` times cell `[1, xi]` |
| PhysicsObjects.SigmaXDecreasesAlongSpan | src/physics_objects.py:32-37 | Off the neutral axis, a cell further from the fixed end holds a strictly smaller (more negative) value |
| PhysicsObjects.TauXYCellClosedForm | src/physics_objects.py:39-44 | The shear value is `-(10 * length * height * (height/2)) / (I * height)`. This equals `-(5 * length * height) / I` and `-(60 * length) / (base * height^2)`, and it is negative |
| PhysicsObjects.SigmaXGrid | src/physics_objects.py:32-37 | The normal-stress grid a fill produces: `floor(height/resolution)` rows of `floor(length/resolution)` cells, cell `[yi, xi]` being `SigmaXAt(yi, xi)` |
| PhysicsObjects.TauXYGrid | src/physics_objects.py:39-44 | The shear grid a fill produces: the same shape, every cell being `TauXYAt()` |
| PhysicsObjects.FillSigmaXTwice | src/physics_objects.py:32-37 | The normal-stress fill is idempotent. The snapshot `once` taken after the first fill is `SigmaXGrid(b)`, and after the second fill the grid is again exactly `once`, whatever it held before. The shear grid is untouched |
| PhysicsObjects.FillTauXYTwice | src/physics_objects.py:39-44 | The shear fill is idempotent. The snapshot `once` taken after the first fill is `TauXYGrid(b)`, and after the second fill the grid is again exactly `once`, whatever it held before. The normal-stress grid is untouched |

## Left out

- `export_sigma_x_heatmap` and `export_tau_xy_heatmap` (src/physics_objects.py:46-56) are not modelled. They draw with matplotlib and write an image file, which is foreign library code and file I/O.
- The `__main__` script (src/physics_objects.py:67-72) only calls the operations above and the two exports. Nothing of it is modelled except the beam it builds, whose grid shape and `I` are stated by `DefaultDemoGeometry`.
- Numbers are exact reals, not IEEE doubles, so rounding is not modelled. In the source, `int(length/resolution)` truncates a float quotient that may be inexact (`2/0.01`, for one). In the model it is the floor of the exact quotient.
- Beam.constructor: requires `height`, `base`, `length` and `resolution` to be strictly positive. The source does not check them. Zero or negative values cause a division error, an empty grid, a NumPy error on negative sizes, or a zero or negative `I`. None of these paths is modelled. With `base = 0`, the source builds the beam, and the first fill of a non-empty grid divides by zero.
- SigmaX and TauXY: require a non-zero divisor. The source would raise a division error there instead. Every beam satisfies the requirement because its `I` and `height` are positive.
- SampleMoment: the contract says the moment is non-negative and zero at `x = 0`. It does not state that the moment is strictly positive everywhere else. `SigmaXNegativeInside` states the consequence of that fact for the grid.
- Beam.ComputeFullBeamTauXY: the source computes `x_position` and `y_position` on every iteration and then never uses them. The model leaves out those two dead computations.
- NumPy's `float64` dtype, its row-major memory layout, and Python's freedom to reassign the grid attributes are not modelled. The grids are `const` references to `array2<real>`, and only their cells change.
- The moment function and Q are fixed in the two fills, as in the source. `SigmaX` and `TauXY` accept any function of the right shape.
