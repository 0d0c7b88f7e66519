# Hirai–Tarui social-force pedestrian model in Dafny

This project models the per-pedestrian force and state-update cycle of the Hirai–Tarui social-force model, over exact reals. Each step has four parts:

- **Force terms.** A sum of force terms acts on a pedestrian:
  - its own drive `F_ai`;
  - the repulsion `F_bi` and the cohesion `F_ci` of its neighbours;
  - the push of the nearest wall `F_wi`;
  - the pull of visible signs `F_eik` and of remembered signs `F_fik`;
  - the attraction of an exit `F_gi`;
  - the push away from a panic site `F_hi`;
  - the random fluctuation `F_31`.
- **Acceleration.** The total force is balanced against viscous damping to give an acceleration, `(F_total - nu v) / m`.
- **Euler step.** `update` advances velocity, then position, with one semi-implicit Euler step.
- **Guidance (latest draft only).** In the latest agent, `HTM/src/agents.py`, a perception and memory state machine decides each step between heading for the nearest exit and following signs. It remembers the signs it has seen.

The repository holds several drafts of the same model that disagree with one another. Each draft is modelled in its own module:

| module | models |
|---|---|
| `Kernels` | the piecewise-linear interaction kernels `c1`, `h1`, `c2`, `h2` of `src/forces.py` |
| `Forces` | the force terms of `src/forces.py` |
| `HtModel` | the single-file draft `ht_model.py`: its exp-cos kernel, its own `F_bi`, `F_ci`, `F_wi` and `F_31`, and its `Agent` |
| `ModelDraft` | the earlier draft `model.py`: its first-match `F_wi` and its `Agent` |
| `SrcAgents` | the `Agent` of `src/agents.py` |
| `HtmAgents` | the `Agent` of `HTM/src/agents.py`: sign visibility, sign memory, the exit/sign mode switch and the force composition |
| `Parameters`, `HtmParameters` | the parameter records of `src/parameters.py` and `HTM/src/parameters.py`, with their defaults and validity predicates |
| `Utils` | `normalize`, `angle_between`, `extract_segments` and `extract_walls_from_geometry` of `src/utils.py` (`ht_model.py` and `model.py` carry identical copies) |
| `Dynamics` | the force sum, the damped acceleration and the Euler step every `Agent` shares |
| `Geometry` | the foreign numerics and geometry the model consumes, as an `Adapter` value (norm, arccos, exp, cos, shapely distances, closest points, centroids), with the properties the proofs assume (`Sound`, `SoundKernels`) |
| `Vectors`, `Arith`, `Wrappers` | planar vectors, small real-arithmetic lemmas, `Option` |

### How the drafts are handled

**Which force values are inputs.** Some cross-file calls in the repository do not match their targets. The model keeps them as they are written, and the values they would produce become inputs:

- `src/agents.py` calls `F_bi`, `F_ci`, `F_wi`, `F_eik` and `F_hi` in ways `src/forces.py` does not accept:
  - it imports `c_func`/`h_func`, which `src/forces.py` does not define;
  - `F_wi` returns a pair there;
  - the attribute names `wall_strength_into`/`wall_strength_always` read from the parameters are not in `src/parameters.py`, which names them `wall_strength_close`/`wall_strength_far`;
  - `F_eik` is called without a velocity;
  - `F_hi` is called without a panic site.

  Those five values are `SrcAgents.UnboundForces`. The calls that do match (`F_ai`, `F_fik`, `F_gi`, `F_31`) are modelled by `Forces`.
- `HTM/src/agents.py` imports a forces module and an `AllForceParameters` class, neither of which is present. The force values it reads arrive as a `HtmAgents.ForceInputs` record. The parameter record is reconstructed from the attribute reads as `HtmAgents.AllParameters`.

**Behaviour of the code the model keeps as written:**

- **Exit-domain test.** `HTM/src/agents.py` reads the distance to the exit held from the *previous* step, before the nearest exit is recomputed. So an agent that enters another exit's domain retargets that exit but still follows signs for one step (`HtmAgents.GuideExitTestLags`, with the concrete instance `HtmAgents.ExitTestUsesPreviousExit`).
- **Zero distance in `F_fik`.** `F_fik` of `HTM/src/agents.py`, and `F_eik`/`F_fik` of `ht_model.py` and `model.py`, skip a remembered sign at zero distance instead of dividing by it (`Forces.MemoryPull`).
- **Cohesion in `ht_model.py`.** `ht_model.py` computes `F_ci` as `-(Σ h r̂)/M`, not as velocity alignment. With the identical `c_func`/`h_func` of that file, this is its repulsion averaged over the neighbours (`HtModel.CohesionIsAveragedRepulsion`).
- **Sign of the random force.** `ht_model.py` and `model.py` return `-q2 u` and `-q1 u` near walls, where `src/forces.py` returns `+q2 u` and `+q1 u` (`HtModel.RandomForce`).

## Model

| member | source | states |
|---|---|---|
| Kernels.C1 | src/forces.py:11-19 | `c1(0) = cn0`; `c1 = cr0` on `[beta, gamma)`; `c1 = 0` from `epsilon` on |
| Kernels.C1OnRise | src/forces.py:12-13 | below `beta`, `c1` is the line from `cn0` towards `cr0`, `cn0 + (cr0 - cn0) r / beta` |
| Kernels.C1OnPlateau | src/forces.py:14-15 | on `[beta, gamma)`, `c1` is `cr0`, so the rise ends at `cr0` at `r = beta` |
| Kernels.C1OnFall | src/forces.py:16-17 | on `[gamma, epsilon)`, `c1` is the falling line `cr0 (1 - (r - gamma)/(epsilon - gamma))` |
| Kernels.C1Bounds | src/forces.py:11-19 | for ordered thresholds, `cn0 <= 0 <= cr0` and `r >= 0`, `c1` stays in `[cn0, cr0]` |
| Kernels.C1Rising | src/forces.py:11-15 | `c1` never decreases on `[0, gamma)` |
| Kernels.C1Falling | src/forces.py:14-19 | `c1` never increases from `beta` on |
| Kernels.H1 | src/forces.py:23-29 | `h1 = hr0` below `lam`; `h1 = 0` at and beyond `sigma` |
| Kernels.H1OnFall | src/forces.py:26-27 | on `[lam, sigma)`, `h1` is the falling line `hr0 (1 - (r - lam)/(sigma - lam))` |
| Kernels.H1Bounds | src/forces.py:23-29 | with `hr0 >= 0`, `h1` stays in `[0, hr0]` |
| Kernels.H1NonIncreasing | src/forces.py:23-29 | with `hr0 >= 0`, `h1` never increases with distance |
| Kernels.AngleKernel | src/forces.py:33-73 | the shape shared by `c2` and `h2`: `k1` below `phi1`, `k2` on `[phi2, phi3)`, 0 from `phi4` on |
| Kernels.AngleKernelOnStep | src/forces.py:44-45 | on `[phi1, phi2)`, the kernel is the line from `k1` down towards `k2` |
| Kernels.AngleKernelOnTail | src/forces.py:48-49 | on `[phi3, phi4)`, the kernel is the line from `k2` down towards 0 |
| Kernels.AngleKernelBounds | src/forces.py:33-73 | with ordered angles and `0 <= k2 <= k1`, the value stays in `[0, k1]` |
| Kernels.AngleKernelAroundK2 | src/forces.py:42-51 | at least `k2` before `phi3`; at most `k2` from `phi2` on |
| Kernels.AngleKernelStepFalls | src/forces.py:44-45 | non-increasing on the step `[phi1, phi2)` |
| Kernels.AngleKernelTailFalls | src/forces.py:48-49 | non-increasing on the tail `[phi3, phi4)` |
| Kernels.AngleKernelNonIncreasing | src/forces.py:33-73 | with ordered angles and `0 <= k2 <= k1`, `c2`/`h2` never increase as the angle widens |
| Utils.NormalizeIsScale | src/utils.py:8-11 | a vector of positive norm normalizes to `(1/‖v‖) v` |
| Utils.NormalizeCases | src/utils.py:8-11 | the zero vector normalizes to the zero vector; any other vector to a positive multiple of itself |
| Utils.NormalizeUnit | src/utils.py:8-11 | a nonzero vector normalizes to unit length, and normalizing is idempotent on it |
| Utils.NormSymmetric | HTM/src/agents.py:80-88 | the distance from agent to sign equals the distance from sign to agent (needs a homogeneous norm) |
| Utils.Clip | src/utils.py:33 | `np.clip` lands in `[lo, hi]`, is the identity inside it, and maps values below or above to `lo` or `hi` |
| Utils.AngleBetween | src/utils.py:29-34 | 0 when either norm is zero; otherwise `arccos` of some value in `[-1, 1]` |
| Utils.AngleBetweenRange | src/utils.py:29-34 | under a sound adapter, 0 against a zero vector and always within `[0, PI]` |
| Utils.AngleBetweenSymmetric | src/utils.py:29-34 | the angle does not depend on the order of its arguments |
| Utils.ExtractSegments | src/utils.py:23-26 | a ring of `n > 0` coordinates gives `n - 1` edges, edge `i` joining `coords[i]` to `coords[i+1]` |
| Utils.SegmentsChain | src/utils.py:23-26 | consecutive edges share an endpoint |
| Utils.SegmentsRebuildRing | src/utils.py:23-26 | the start points followed by the last end point give the ring back, so no coordinate is lost |
| Utils.ExtractWalls | src/utils.py:14-20 | `1 + #holes` polygons, the exterior first, then each hole in order, none with holes of its own |
| Utils.ExtractWallsOfWall | src/utils.py:14-20 | extracting the walls of an extracted wall gives that wall alone |
| Geometry.ArgMin | HTM/src/agents.py:138-140 | the index of the first smallest entry, as `np.argmin` returns it |
| Geometry.NearestSegment | src/forces.py:166-177 | the scan finds a segment exactly when there is one; it is the first nearest, with its distance |
| Geometry.WallClearance | src/agents.py:90-94 | `di` is 1.0 with no polygons; otherwise it is the distance to some polygon's exterior and at most every such distance |
| Forces.DrivingForce | src/forces.py:152-154 | zero for a standing pedestrian; otherwise `(a/‖v‖) v` |
| Forces.DrivingForceMagnitude | src/forces.py:152-154 | a moving pedestrian is driven with magnitude exactly `a` |
| Forces.Repulsion | src/forces.py:140-148 | `F_bi` is minus the sum, over neighbours in list order, of `c1(r) c2(phi) r̂` |
| Forces.RepulsionIgnoresCoincident | src/forces.py:141-148 | the repulsion sum over all neighbours equals the sum over those at positive distance |
| Forces.Cohesion | src/forces.py:100-113 | `F_ci` is zero for an empty list, otherwise `(1/M) Σ h1(r) h2(phi) (v_j - v_i)`, with `M` counting every neighbour |
| Forces.CohesionIgnoresCoincident | src/forces.py:105-113 | the cohesion sum over all neighbours equals the sum over those at positive distance |
| Forces.WallSegmentsMembership | src/forces.py:169-171 | an edge is in the flattened list exactly when it is an edge of one of the polygons |
| Forces.WallStrength | src/forces.py:182-186 | strength is `w1` unless moving into the wall; with `w0 >= 0` and `dist <= d` never below `w1`; with `w0 > 0` and `dist < d` above `w1` exactly when moving into the wall |
| Forces.ExtraPushFacts | src/forces.py:184 | the extra push `w0 vwi (d - dist)/d` is non-negative in range, and positive strictly inside it |
| Forces.WallStrengthGrowsNearer | src/forces.py:184 | moving into the wall, the strength grows strictly as the wall gets nearer |
| Forces.WallStrengthGrowsFaster | src/forces.py:184 | within range, the strength grows strictly with the speed into the wall |
| Forces.WallRepulsion | src/forces.py:157-190 | the scan returns the force and direction `WallForce` describes: the nearest edge (first of the closest) decides |
| Forces.WallForceAt | src/forces.py:179-188 | with the nearest edge `segs[k]` within `d`, the force is `strength(-v·e_w, dist) e_w` and the direction is `e_w`, the unit vector from the closest point to the pedestrian |
| Forces.WallForceOutOfRange | src/forces.py:179-190 | with no edge strictly within `d`, the result is the zero vector and the placeholder `(1, 0)` |
| Forces.NearestInRange | src/forces.py:173-179 | when some edge is within `d`, so is the nearest one |
| Forces.WallForceInRange | src/forces.py:179-188 | with an edge within `d`, the force is `strength · e_w` with `strength = w1` when not moving into the wall and `strength >= w1` when `w0 >= 0` |
| Forces.VisibleSignForce | src/forces.py:193-224 | `F_eik` is the sum, in list order, of `eta · normalize(P_k - x)` over the signs within the radius, inside the sign's cone and inside the field of view |
| Forces.MemorySignForce | src/forces.py:227-238 | `F_fik` is the sum of `eta (P_k - x)/‖P_k - x‖` over the remembered signs, skipping a sign at zero distance |
| Forces.PullsAgree | src/forces.py:222 | a sign pulls the same whether it is seen (`eta · normalize`) or remembered (`eta · dir / dist`) |
| Forces.VisibleIsMemoryOfAttracting | src/forces.py:209-238 | `F_eik` equals `F_fik` over the positions of the signs that pass its tests |
| Forces.ExitForce | src/forces.py:241-248 | zero with no exits; otherwise `(strength/‖c - x‖)(c - x)` towards the first exit's centroid `c` |
| Forces.ExitForceFirstOnly | src/forces.py:245-248 | only the first exit is ever used |
| Forces.ExitForceMagnitude | src/forces.py:247-248 | away from the first exit's centroid the pull has magnitude exactly `strength` |
| Forces.PanicForce | src/forces.py:251-271 | zero at the panic site or beyond `cutoff`; otherwise `strength` times the unit vector from the panic site to the pedestrian |
| Forces.PanicForceMagnitude | src/forces.py:266-271 | inside the cutoff and off the site, the push has magnitude exactly `strength` |
| Forces.RandomForce | src/forces.py:274-283 | `q2 u` exactly when `di <= d` and `bwi > 0`, and `q1 u` in every other case |
| Dynamics.TotalForce | src/agents.py:104-106 | each component of `F_total` is the sum of that component of the nine terms |
| Dynamics.Acceleration | src/agents.py:123 | `m · acc + nu · v = F_total` |
| Dynamics.AccelerationUnique | src/agents.py:123 | any `acc` with `m · acc + nu · v = F_total` is the computed one |
| Dynamics.EulerStepSemiImplicit | src/agents.py:47-50 | `v' = v + dt·acc` and `x' = x + dt·v + dt²·acc`, which differs from the explicit step exactly when `dt²·acc` is nonzero |
| Dynamics.UnforcedDecay | ht_model.py:197-200 | with no force, one step multiplies the velocity by `1 - dt·nu/m` |
| Parameters.Default | src/parameters.py:3-23 | the defaults are valid, with `close = far`, `eta_sign = eta_mem`, `q1 < q2` and `random_threshold = wall_distance` |
| SrcAgents.ParamsOrDefault | src/agents.py:45 | a given record is used as it is; none gives the defaults |
| SrcAgents.DefaultRandomBranch | src/agents.py:90-102 | with the defaults and no polygons, `di > d` is never taken: a moving agent draws `q2 u`, a standing one `q1 u` |
| SrcAgents.Agent.constructor | src/agents.py:24-45 | the state is the given position, velocity, mass (default 1.0) and damping (default 0.5), zero acceleration, and the given parameters or, when none are given, the defaults |
| SrcAgents.Agent.Update | src/agents.py:47-50 | `(x, v)` becomes the semi-implicit Euler step with the old acceleration; nothing else changes |
| SrcAgents.Agent.ComputeForces | src/agents.py:73-123 | only `acc` changes; it is the damped acceleration of the nine terms, with `di` the wall clearance, `bwi = v·v` and `d = random_threshold` |
| HtModel.ExpCosBounds | ht_model.py:44-51 | `exp(-dist) cos(angle)` has the sign of the cosine and size at most `exp(-dist)` |
| HtModel.Repulsion | ht_model.py:60-75 | `F_bi` is the sum, in list order, of `-c(dist, angle) r̂` over neighbours at positive distance |
| HtModel.RepulsionIgnoresCoincident | ht_model.py:68-75 | the sum over all neighbours equals the sum over those at positive distance |
| HtModel.RepulsionTermFactored | ht_model.py:69-74 | one neighbour's term, for a kernel factoring as `c1(dist) c2(angle)`, is minus the corresponding `src/forces.py` term |
| HtModel.RepulsionMatchesFactored | ht_model.py:60-75 | for a kernel factoring as `c1(dist) c2(angle)`, this `F_bi` equals `F_bi` of `src/forces.py` |
| HtModel.Cohesion | ht_model.py:78-96 | `F_ci` is zero for an empty list, otherwise `-(Σ h r̂)/M` |
| HtModel.NegCohesionTerm | ht_model.py:90-95 | with one kernel, a neighbour's cohesion term is minus its repulsion term |
| HtModel.NegCohesionIsRepulsion | ht_model.py:89-96 | with one kernel, minus the cohesion sum is the repulsion sum |
| HtModel.CohesionIsAveragedRepulsion | ht_model.py:78-96 | with the same kernel for `c` and `h`, `F_ci` is `F_bi / M`: it pushes away from neighbours rather than pulling |
| HtModel.WallRepulsion | ht_model.py:99-128 | the scan returns `WallForce`: the push of the nearest edge when within `d`, else zero |
| HtModel.WallForceAt | ht_model.py:115-126 | with the nearest edge `segs[k]` within `d`, `d > 0` and the force is that edge's push, `(1 - dist/d) · strength · direction` |
| HtModel.EdgePushAlong | ht_model.py:123-126 | an edge's push is `(1 - dist/d)` times `w1` or `w0` (by the sign of `v·direction`) times the direction |
| HtModel.WallForceOutOfRange | ht_model.py:121-128 | with no edge strictly within `d`, the force is zero |
| HtModel.WallFalloffInRange | ht_model.py:121-126 | with an edge within `d`, the fall-off `1 - min_dist/d` of the nearest edge lies in `(0, 1]` |
| HtModel.FalloffRange | ht_model.py:126 | `1 - min_dist/d` lies in `(0, 1]` for `0 <= min_dist < d` |
| HtModel.EdgePushAwayFromWall | ht_model.py:122-126 | with positive strengths, an edge's push within range is a positive multiple of the unit vector away from the wall |
| HtModel.RandomForce | ht_model.py:162-171 | away from walls the `src/forces.py` value; near a wall exactly its negation |
| HtModel.RandomForceWithSpeed | ht_model.py:233-239 | near a wall with `bwi = v·v`, a moving agent takes `-q2 u`, a standing one `-q1 u` |
| HtModel.Agent.constructor | ht_model.py:176-195 | the given position, velocity, mass (default 1.0) and damping (default 0.5), with zero acceleration |
| HtModel.Agent.Update | ht_model.py:197-200 | `(x, v)` becomes the semi-implicit Euler step; acceleration, mass and damping are unchanged |
| HtModel.Agent.ComputeForces | ht_model.py:202-260 | only `acc` changes; it is the damped acceleration of the nine terms at this draft's defaults, with `di` the wall clearance and `bwi = v·v` |
| ModelDraft.WallRepulsion | model.py:45-57 | the scan returns the push of the first wall in list order whose exterior is within `d`, and zero if none is |
| ModelDraft.FirstMatchWins | model.py:46-56 | if wall `k` is the first in range, the force is wall `k`'s push, whatever lies after it |
| ModelDraft.NoWallInRange | model.py:46-57 | with no wall in range, the force is zero |
| ModelDraft.WallPushAwayFromCentroid | model.py:50-56 | with positive strengths, the push has a positive component along the line from the centroid to the agent |
| ModelDraft.Agent.constructor | model.py:97-102 | the given position, velocity, mass (default 1.0) and damping (default 0.5), with zero acceleration |
| ModelDraft.Agent.Update | model.py:104-106 | `(x, v)` becomes the semi-implicit Euler step; acceleration, mass and damping are unchanged |
| ModelDraft.Agent.ComputeForces | model.py:108-125 | only `acc` changes; `F_gi`, `F_hi` are the given inputs, and `acc` is the damped acceleration of the nine terms |
| HtmParameters.DefaultForce | HTM/src/parameters.py:5-31 | the defaults are valid: positive wall range, `fov_angle = 2 PI/3` in `(0, 2 PI]`, non-negative weights, `q1 < q2` |
| HtmParameters.DefaultC1 | HTM/src/parameters.py:34-41 | the defaults satisfy `0 < beta < nu < gamma < epsilon` and `cn0 < 0 < cr0` |
| HtmParameters.ValidC1Shape | HTM/src/parameters.py:34-41 | a valid record gives `c1` the shape its bound and monotonicity lemmas need |
| HtmParameters.DefaultH1 | HTM/src/parameters.py:44-48 | the defaults satisfy `0 < lam < sigma` and `hr0 >= 0` |
| HtmParameters.DefaultC2H2 | HTM/src/parameters.py:51-60 | the defaults satisfy `0 < phi1 < phi2 < phi3 < phi4 < PI`, `0 <= cphi2 <= cphi1` and `0 <= hphi2 <= hphi1` |
| HtmParameters.ValidC2H2Shape | HTM/src/parameters.py:51-60 | a valid record gives `c2` and `h2` the shape their lemmas need |
| HtmAgents.DefaultAll | HTM/src/agents.py:60 | the default record is valid |
| HtmAgents.VisibleSignsExact | HTM/src/agents.py:78-97 | a position is reported exactly when some sign standing there is within the radius, within half the field of view, and faces the agent within half the sign cone |
| HtmAgents.VisibleSignsAreAttracting | HTM/src/agents.py:79-95 | the visible signs are exactly those `F_eik` of `src/forces.py` pulls towards with the same radius and angles |
| HtmAgents.CloseReflexive | HTM/src/agents.py:154 | every point is `np.allclose` to itself |
| HtmAgents.Memorize | HTM/src/agents.py:153-155 | with nothing visible, the memory is unchanged |
| HtmAgents.MemorizeExtends | HTM/src/agents.py:153-155 | the old memory is a prefix of the new one, which grows by at most one entry per visible sign, each a visible position |
| HtmAgents.MemorizeCovers | HTM/src/agents.py:153-155 | afterwards every visible position is close to some remembered entry |
| HtmAgents.MemorizeKeepsDuplicateFree | HTM/src/agents.py:153-155 | a memory in which no entry is close to an earlier one stays so |
| HtmAgents.ExitDistances | HTM/src/agents.py:135-136 | one distance per exit |
| HtmAgents.Guide | HTM/src/agents.py:137-170 | the chosen exit is the first nearest one |
| HtmAgents.GuideExitMode | HTM/src/agents.py:142-148 | near the previously held exit, only `F_gi` acts, towards the newly chosen exit, and the memory is unchanged |
| HtmAgents.GuideSignMode | HTM/src/agents.py:149-170 | otherwise `F_gi` is zero, the visible signs are memorized, and `F_eik` (some visible) or `F_fik` over the memory (none visible) acts alone |
| HtmAgents.GuideNeverBothSignForces | HTM/src/agents.py:157-170 | at least one of `F_eik`, `F_fik` is zero in every mode |
| HtmAgents.GuideExitTestLags | HTM/src/agents.py:137-151 | for every distance list: outside the domain of the exit held but inside that of the nearest exit, the agent retargets the nearest exit, which differs from the one held, and `F_gi` is zero this step |
| HtmAgents.ExitTestUsesPreviousExit | HTM/src/agents.py:137-142 | one instance: an agent holding a far exit 0 while within the domain of exit 1 retargets exit 1 but still follows signs this step |
| HtmAgents.Agent.constructor | HTM/src/agents.py:35-60 | the given id, position, velocity, mass (default 80.0) and damping (default 0.5), zero acceleration, an empty memory, exit 0, and the given parameters or, when none are given, the defaults |
| HtmAgents.Agent.Update | HTM/src/agents.py:62-65 | `(x, v)` becomes the semi-implicit Euler step; `acc`, `mem_signs`, `last_exit_seen` and the rest are unchanged |
| HtmAgents.Agent.GetVisibleSigns | HTM/src/agents.py:67-97 | returns the positions of the visible signs, in input order |
| HtmAgents.Agent.ComputeForces | HTM/src/agents.py:99-213 | `last_exit_seen` and `mem_signs` become what the mode logic decides; `acc` is the damped acceleration of the nine terms with `bwi = f_wi · e_w`; position, velocity and parameters are unchanged |

## Left out

- Randomness: `random_unit` is not modelled. The unit vector it would draw inside `F_31` is an argument `u`, and its uniformity is not modelled.
- Foreign numerics and geometry are fields of `Geometry.Adapter`, constrained only by `Sound` and `SoundKernels`. These are `sqrt` inside `np.linalg.norm`, `arccos`, `exp`, `cos`, and shapely's segment distance, project/interpolate, centroid and exterior distance.
- Floating point: the model computes over exact reals.
  - IEEE rounding, `inf` and `nan` are not modelled.
  - Where Python would divide by zero (`beta`, `d` or `m` equal to 0 on the path that divides), the model requires the divisor nonzero.
  - Regroupings that are equal over the reals are modelled in one form: `-c * (r/dist)` as `-(c · r/dist)`, and `strength * direction * falloff` as `falloff · (strength · direction)`.
- `np.allclose` is modelled with its default tolerances (`rtol = 1e-5`, `atol = 1e-8`) on each component. Array broadcasting and nan handling are not modelled.
- Logging and debug output in the `compute_forces` methods are I/O side effects.
- `src/plot_agents_interaction.py` is a plotting script. Its kernels are copies of those in `src/forces.py`.
- `simulate()` and the plotting entry point of `model.py` are a random-driven driver and visualisation.
- Multi-agent step phasing and parallel scheduling are not modelled, because no code in the repository schedules agents. Only the single-agent `compute_forces` and `update` are modelled.
- `HtmAgents.Agent.ComputeForces`: `F_ai`, `F_bi`, `F_ci`, `F_wi` with `e_w`, `F_eik`, `F_hi`, and the functions giving `F_fik`, `F_gi` and `F_31`, are inputs. The forces module the agent imports is not part of this model. `AllForceParameters` is reconstructed from the attribute reads.
- `HtmAgents.Agent.ComputeForces` requires a non-empty exit list and a valid previous index. With either missing, the Python code raises an exception, which the model does not represent.
- `SrcAgents.Agent.ComputeForces`: `F_bi`, `F_ci`, `F_wi`, `F_eik` and `F_hi` are inputs, because their calls do not match `src/forces.py`.
- `ModelDraft.Agent.ComputeForces`: `F_gi` and `F_hi` of `model.py` return their arguments unchanged, so the model passes those inputs straight into the sum.
- The exit argmin compares distances (norms), as the code does, not squared distances. Its result is the first index of the smallest entry.
- `Utils.AngleBetweenRange`: the `[0, PI]` range rests on the assumed range of `arccos`. `angle_between(v, v) = 0` and `angle_between(v, -v) = PI` are not stated, because they depend on rounding of the normalized dot product.
- `Forces.DrivingForceMagnitude`, `Forces.ExitForceMagnitude`, `Forces.PanicForceMagnitude` and `Utils.NormalizeUnit` hold only for an adapter whose norm scales with `|c|` (`Homogeneous`). Exact unit length is not claimed for floating point.
- Behaviour over many steps, such as the speed of a lone driven agent approaching `a/nu`, is not proved; only the single-step decay `Dynamics.UnforcedDecay` is.
