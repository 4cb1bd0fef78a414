# Moving heat sources of adamantine, in Dafny

This project models the moving heat-source engine of adamantine, a thermo-mechanical
additive-manufacturing simulator, together with the two hand-written coefficient
functions of its elastostatic operator.

- **Donut heat source** (`Donut`): the friction-stir tool model. The model covers:
  - reading the configuration database, with its defaults;
  - `update_time`, which moves the tool centre, sets the rotation angle with a C-style
    `fmod`, and derives the heat coefficient `alpha` from force × radius × angular velocity;
  - `value`, the heat at a point. It applies the depth gate, the quadratic depth profile,
    the constant 300 under the pin, the advancing/retreating modifier and the Gaussian
    radial decay.
- **Heat-source base** (`HeatSourceBase`): the pieces used by every heat source:
  - scan-path segments and the heat-source properties;
  - the documented rules on a heat source's database;
  - the beam-centre cursor, with its save/rewind checkpoint;
  - `set_max_height`.
- **Mechanical coefficients** (`Mechanical`): the isotropic stiffness tensor
  C_ijkl = λ δ_ij δ_kl + μ (δ_ik δ_jl + δ_il δ_jk), filled in place by four nested loops
  over an `array4`, and the constant body force.
- **Numerics** (`Numerics`, `Axes`):
  - `dealii::numbers::PI` as an exact decimal;
  - C's `fmod` for a positive divisor, as `x - y * trunc(x / y)`;
  - the normalisation of an angle into (-π, π];
  - the coordinate axes `axis<dim>`.

Everything is over exact `real`. `exp` and `atan2` are parameters of the evaluation. Nothing
is assumed about them, except where a lemma needs `exp` positive at the one argument used.

Where the source and its documentation disagree, the model follows the code:
- `rotation_speed` is documented as rad/s (source/DonutHeatSource.hh:33, :59). The code uses
  it as rad/s for the angle (source/DonutHeatSource.cc:43). It converts it as rev/min for
  the power (source/DonutHeatSource.cc:49). `Donut.ToolPower` keeps the ×2π/60.
- `atan2` is applied to the point's absolute coordinates, not to its offset from the tool
  centre (source/DonutHeatSource.cc:93). `Donut.DonutHeatSource.Value` does the same, so the
  side split depends on where the point is in the global frame.
- The value under the pin is the literal 300 (`Donut.InnerZoneValue`). It is not a heat.
- The tool angle is `fmod(rotation_speed · t, 2π)`. It lies in (-2π, 2π) and has the sign of
  `rotation_speed · t`. It is not wrapped into [0, 2π).
- `_log_01` is not declared in any file of the model. It is a constructor parameter,
  `log01`, and nothing is assumed about its value. For positive efficiency and power,
  the heat coefficient has `log01`'s sign (`Donut.HeatCoefficient`). The heat outside
  the pin has the heat coefficient's sign (`Donut.ValueHasSignOfAlpha`). Together they
  imply this: only when `log01 < 0` (for example log 0.1, as the name suggests) does a
  tool with positive force, efficiency and rotation speed deposit negative heat there.
- The configuration documentation lists `absorption_efficiency` as required. The code
  defaults it to 0.8 (source/DonutHeatSource.cc:31).
- `utils.hh` is not part of this model. The model takes `axis<dim>` as x = 0, z = dim − 1,
  with y = 1 in 3-D only. This is why the code guards the y offset with `dim == 3`. The
  angular split (source/DonutHeatSource.cc:93) reads `point[axis<dim>::y]` unguarded. So
  `Value` may be asked about a 2-D point only when the depth gate or the pin settles it.

## Model

| member | source | states |
|---|---|---|
| Numerics.Fmod | source/DonutHeatSource.cc:43 | C's `fmod` for a positive divisor: the result lies strictly inside (-y, y). It has the sign of x and differs from x by a whole multiple of y. An x already inside (-y, y) is returned unchanged. |
| Numerics.NormalisedAngle | source/DonutHeatSource.cc:94 | The corrected relative angle: it lies in (-π, π] and differs from the input by whole turns. |
| Numerics.NormalisedAngleOfSameDirection | source/DonutHeatSource.cc:94 | Two angles a whole number of turns apart normalise to the same value. |
| HeatSourceBase.SpotHasZeroLength | source/HeatSource.hh:35-43 | A spot appended after a segment is stored as a line that starts where it ends, so its length is zero. |
| HeatSourceBase.PowerInputOf | source/HeatSource.hh:124-131 | A valid database gives the power either as max_power (when present) or as current and voltage. The values are the database's own entries, and they are non-negative. |
| HeatSourceBase.PathInputOf | source/HeatSource.hh:132-142 | A valid database gives the path either as an input file with its delimiter (when present) or as an abscissa expression, with the ordinate exactly when one is given. In 3-D there is always an ordinate. The strings are the database's own entries. |
| HeatSourceBase.RewindUndoesMoves | source/HeatSource.hh:158-167 | After a save, any sequence of cursor moves followed by a rewind brings the cursor back to the saved segment and time. |
| HeatSourceBase.RewindIdempotent | source/HeatSource.hh:95-98 | Rewinding twice equals rewinding once. |
| HeatSourceBase.SaveThenRewindIsIdentityOnCursor | source/HeatSource.hh:158-167 | A save immediately followed by a rewind leaves the cursor as it was. |
| HeatSourceBase.BeamCenter.constructor | source/HeatSource.hh:83 | A new tracker has an empty segment list, and its cursor and slot are at segment 0, time 0. |
| HeatSourceBase.BeamCenter.LoadSegmentList | source/HeatSource.hh:85 | The segment list is replaced by the given one. |
| HeatSourceBase.BeamCenter.SaveTime | source/HeatSource.hh:92-98 | The slot takes the current segment and time. The cursor and the segment list are unchanged. |
| HeatSourceBase.BeamCenter.RewindTime | source/HeatSource.hh:90-98 | The cursor takes the saved segment and time. The slot and the segment list are unchanged. |
| HeatSourceBase.HeatSource.constructor | source/HeatSource.hh:144-190 | Stores the properties, the segment list and the height. Creates a beam-centre tracker loaded with the segments, so the tracker walks the heat source's own scan path (`Valid`). |
| HeatSourceBase.HeatSource.SetMaxHeight | source/HeatSource.hh:194-198 | The domain height becomes the given height. The tracker is unchanged, every other field is constant, and `Valid` is kept. |
| HeatSourceBase.HeatSource.SaveTime | source/HeatSource.hh:163-167 | Saves the tracker's cursor, as BeamCenter.SaveTime. The height is unchanged and `Valid` is kept. |
| HeatSourceBase.HeatSource.RewindTime | source/HeatSource.hh:158-161 | Rewinds the tracker's cursor, as BeamCenter.RewindTime. The height is unchanged and `Valid` is kept. |
| Donut.ReadDonutConfig | source/DonutHeatSource.cc:18-33 | Succeeds exactly when inner_radius and diameter are present. Otherwise it reports the first missing one, inner_radius first. It stores the inner radius squared (non-negative) and the diameter as given. |
| Donut.ReadDonutConfigDefaults | source/DonutHeatSource.cc:27-32 | Absent entries take their defaults: rotation_speed 0.0, both modifiers 1.0, absorption_efficiency 0.8, force 4900.0. Present entries are taken as given. |
| Donut.DocumentedDatabaseReads | source/DonutHeatSource.hh:26-34 | A database in the documented domain is read without error. The result has efficiency in [0,1], diameter ≥ 0 and inner radius squared ≥ 0. |
| Donut.DepthProfileEnds | source/DonutHeatSource.cc:77-78 | The depth profile is 1 at the surface (z = 0) and 0 at z = −depth. |
| Donut.DepthProfileSign | source/DonutHeatSource.cc:77-78 | The profile is non-negative exactly for −depth ≤ z ≤ depth/3 and positive exactly strictly inside. Above depth/3 it is negative. |
| Donut.ToolPower | source/DonutHeatSource.cc:46-55 | The power is zero when the rotation speed is zero. For positive force and diameter it has the rotation speed's sign. |
| Donut.HeatCoefficient | source/DonutHeatSource.cc:58 | The coefficient is zero when efficiency, power or log01 is zero. For positive efficiency and power it has log01's sign. |
| Donut.RelativeAngle | source/DonutHeatSource.cc:94 | The source's relative angle lies in (-2π, 2π). It is not normalised. |
| Donut.UnnormalisedSideMisclassifies | source/DonutHeatSource.cc:94-99 | Two angle pairs point in the same direction relative to the tool, yet the source's test puts them on opposite sides. The normalised test puts both on the advancing side. |
| Donut.IntendedSideDependsOnlyOnDirection | source/DonutHeatSource.cc:94-99 | With normalisation, angle pairs whose differences are whole turns apart always fall on the same side. |
| Donut.SidesAgreeInPrincipalRange | source/DonutHeatSource.cc:94-99 | When the angle difference is already in (-π, π], the source's test and the normalised test agree. |
| Donut.DonutHeatSource.constructor | source/DonutHeatSource.cc:18-33 | Stores the configuration. The tool centre starts at the origin, the angle at 0, and alpha is unset (the signalling NaN). |
| Donut.DonutHeatSource.UpdateTime | source/DonutHeatSource.cc:37-60 | The tool centre becomes the scan-path position and the angle becomes fmod(rotation_speed·t, 2π). Alpha becomes the heat coefficient of the tool power. With zero rotation speed, both the angle and alpha are 0. The invariant (the angle in (-2π, 2π)) is kept. |
| Donut.DonutHeatSource.PlanarDistanceSquared | source/DonutHeatSource.cc:80-84 | The squared planar distance is non-negative. It is zero exactly when the point's x matches the tool centre's, and in 3-D its y as well. |
| Donut.DonutHeatSource.Value | source/DonutHeatSource.cc:64-106 | Below the tool's reach the value is 0. Inside the pin it is 300. Outside the pin it is α·modifier·radial factor·depth profile. The modifier is the advancing one exactly when the source's side test (`Donut.OnAdvancingSide`) holds for atan2 of the point's absolute y and x against the tool angle. The value is 0 when alpha is 0. With equal modifiers it does not depend on the angle. |
| Donut.ValueMisclassifiesAdvancingPoint | source/DonutHeatSource.cc:93-104 | With the tool at angle π, a point at absolute angle −3π/4 is on the normalised advancing side. `Value` still gives it the retreating modifier. |
| Donut.ValueHasSignOfAlpha | source/DonutHeatSource.cc:101-104 | Outside the pin and strictly inside the profile's positive band, with positive modifiers and a positive exponential, the value has alpha's sign. |
| Donut.ToolCentreGetsInnerZoneValue | source/DonutHeatSource.cc:86-90 | A point at the tool centre, within the tool's reach, gets 300 whenever the pin radius is positive. |
| Mechanical.IsotropicEntrySymmetries | source/MechanicalOperator.cc:40-45 | C_ijkl = C_jikl = C_ijlk = C_klij. |
| Mechanical.IsotropicEntryValues | source/MechanicalOperator.cc:44-45 | C_iiii = λ + 2μ. For i ≠ j: C_iijj = λ and C_ijij = C_ijji = μ. Every entry whose indices do not pair up is 0. |
| Mechanical.StiffnessTensorValue | source/MechanicalOperator.cc:33-48 | Returns a new dim⁴ array whose every entry is the isotropic entry for (λ, μ), independent of the query point. It has minor and major symmetry. |
| Mechanical.RightHandSideValue | source/MechanicalOperator.cc:60-67 | Returns a dim-vector with −10 on the vertical axis and 0 elsewhere, independent of the point. |

## Findings

| source | as written | input that shows it | evidently intended | confidence | as-written member | corrected member |
|---|---|---|---|---|---|---|
| source/DonutHeatSource.cc:94-99 | the side test applies [−π/2, π/2] to fmod(point_angle − current_angle, 2π), which can lie anywhere in (−2π, 2π) | point angle −3π/4 with tool angle π (difference −7π/4) is retreating. Point angle π/4 with tool angle 0 is the same direction and is advancing. | normalise the relative angle into (−π, π] before the test, so that the side depends only on the direction | medium, not executed | Donut.UnnormalisedSideMisclassifies | Donut.IntendedSideDependsOnlyOnDirection |

`Donut.DonutHeatSource.Value` keeps the code's test (`Donut.OnAdvancingSide`), and its
contract names the test. `Donut.ValueMisclassifiesAdvancingPoint` shows the discrepancy
in `Value` itself, with a single tool angle.
`Donut.IntendedAdvancingSide` is the corrected test. `Donut.SidesAgreeInPrincipalRange`
shows that the two differ only when the difference falls outside (−π, π].

## Left out

- Donut.DonutHeatSource.constructor: requires depth > 0 and diameter > 0, where the documentation allows 0. The code divides by both, and the resulting IEEE infinities and NaNs are not modelled.
- Donut.DonutHeatSource.Value: in 2-D, only points settled by the depth gate or the pin may be asked. The code then reads `point[axis<2>::y]`, outside the point.
- Mechanical.StiffnessTensorValue: states that every entry in [0, dim)⁴ ends with its isotropic value. It does not state that each entry is assigned exactly once.
- HeatSourceBase.BeamCenter.LoadSegmentList: states only that the list is replaced. Its body, and its effect on the cursor, are not in the modelled files.
- HeatSourceBase.HeatSource.constructor: the initial domain height is a parameter of the model. The source constructor takes only the database and leaves `_max_height` to `set_max_height`.
- HeatSourceBase.BeamCenter.constructor: the zero initial cursor is an assumption, because the constructor's body is not in the modelled files.
- `BeamCenter::value`, the position lookup along the path and its cursor advance, is not in the modelled files. The donut's `UpdateTime` takes the scan-path position as a parameter. The save/rewind lemmas treat the lookup as an arbitrary cursor move (`MoveTo`).
- HeatSource.cc is not part of this model. This leaves out the `HeatSource` constructor's database parsing, `parse_scan_path` and the Gaussian `HeatSource::value`. The constructor takes the properties and segments it would produce.
- The base-class interface the donut uses (`update_time`, `_scan_path`, `value(point, height)`) is not the one declared in source/HeatSource.hh. The donut class therefore carries the base's depth as its own field.
- The console output of the heat coefficient (source/DonutHeatSource.cc:59) is left out.
- Declared but undefined or unused members are left out: `compute_flow_stress`, `_sigma`, `_material_thickness`, `_pi_over_3_to_1p5`.
- Database entries of the wrong type are left out: boost's bad-data exception is not modelled, and entries are numbers or strings by construction.
- Floating point is left out. This covers the rounding of `exp`, `atan2`, `pow` and `fmod`, and the difference between the double `PI` and π. Everything is over exact reals.
- Also left out, as linear algebra, MPI and file output:
  - the mechanical operator's assembly, `vmult` family and LaTeX dump (source/MechanicalOperator.cc:71-199);
  - the post-processor;
  - the template instantiation files;
  - the 2-D integration test.
