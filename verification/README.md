# Ant particle system: a Dafny model

This project models the simulation core of two Blender scripts:

- `fourmis.py` moves "ants" along a guide polyline over a ground mesh.
- `particle_system_template.py` is the same design with no forces.

In both, a particle system holds a frame counter and a list of particle records. Each frame, `step` walks the list in order and updates every active particle in place.

In `fourmis.py`, a step first snapshots all particle positions into a nearest-neighbour tree. Then, for each active particle, it:

1. adds a guide vector, a turbulence vector and an avoidance vector to the velocity;
2. clamps the speed to the particle's maximum and blends the result with the previous velocity (the rotation cap);
3. puts the particle on the ground, turns its velocity parallel to the ground at the same speed, and moves it;
4. random-walks its `behaviour` inside [0.8, 0.9];
5. updates its target vertex on the guide, `guide_index`, and its walking `direction`.

The project has six modules:

- `Vectors`: 3-vectors over `real` and the `mathutils` operations used. The length operations take a square-root routine as a parameter. `IsSqrt` says when that routine is exact.
- `PyList`: `list.remove` and Python's negative indexing.
- `Spatial`: the two KD-tree queries, `find` and `find_range`, defined by brute force over the snapshot.
- `Steering`: each per-particle rule as a function, with its properties.
- `Fourmis`: the `Particle` record and the per-particle step, as one function (`Advance`) and as methods that follow the source line by line. It also has the `ParticleSystem` class with `add_particles`, `kill_particle`, `create_tree` and `step`.
- `Template`: the forceless template system.

Randomness is passed in as data:

- `Draw` holds the draws behind one new ant.
- `walk[i]` is the `random()` sample used for particle `i`.
- The turbulence noise and the ground's closest-point query are function parameters.

Exceptions are part of the model:

- `IndexError` is raised when `guide_index` falls outside Python's index range.
- `ValueError` is raised when a negative maximum speed is given to the length setter.

In both cases, `step` stops with that particle partly updated and the later particles untouched.

The main results:

- A particle system whose particles are all `Steppable` never raises during a step, and stays that way.
- `Steppable` means a nonnegative maximum speed and a guide state inside the set `GuideSafe`.
- With an exact square root, particles whose speed is within a maximum of at most 1 stay within it. New ants with a unit heading and a maximum speed in [0, 1] start within it.
- The speed bound |velocity| <= MAX_VEL does not hold in the source when MAX_VEL is above 1 (MAX_VEL is about 0.005 scale, so from a scale of about 200). The rotation cap at fourmis.py:158-165 uses the raw, unnormalised dot product. For two opposite velocities faster than 1 it becomes negative, and the blend then extrapolates past both velocities instead of mixing them. SpeedBoundFailsAboveOne exhibits such a case.
- The guide index is not confined to [1, L-2]. It can reach 0, then -1, which is the last vertex under Python indexing, then -2. From -2 no guide vertex is near enough to advance it, so the ant heads for vertex L-2 forever. It never reaches an index that raises.

## Model

| member | source | states |
|---|---|---|
| Fourmis.RandInt | fourmis.py:98 | `randint(lo, hi)` always lands in [lo, hi] |
| Fourmis.RandIntCovers | fourmis.py:98 | every value of [lo, hi] can be drawn |
| Fourmis.NewParticle | fourmis.py:38-58 | a new ant heads for the given guide vertex and starts at the given location. It is active with behaviour 0.6, its direction is +1 or -1, and its noise seed is the draw. Its maximum speed is the gauss sample 0.005 scale + (0.005 scale / 10) spread, which is nonnegative when the scale is nonnegative and the normal draw is no lower than -10 deviations. Its velocity's squared length is the maximum speed squared times that of the drawn heading |
| Fourmis.SpreadNonNegative | fourmis.py:39-40 | a gauss sample around a nonnegative target, with a tenth of it as deviation, is nonnegative when the sample is at most 10 deviations below the mean |
| Fourmis.ForcesFor | fourmis.py:65-71 | the force constants are nonnegative for a nonnegative scale |
| Fourmis.Advance | fourmis.py:117-202 | one active particle's update. IndexError is raised exactly when guide_index is outside [-L, L), with the particle unchanged. ValueError is raised exactly when the index is valid and the maximum speed is negative. On a raise, location and guide_index are kept. Otherwise: active and the maximum speed are unchanged; noise_seed.z grows by 0.01 and x, y are kept; the new location is the ground point plus the new velocity; behaviour is in [0.8, 0.9]; (guide_index, direction) follow GuideStep for the guide vertex nearest the new location |
| Fourmis.SpawnedCalm | fourmis.py:38-43 | an ant spawned from a unit heading with a maximum speed in [0, 1] moves exactly at its maximum speed, so it is within it |
| Fourmis.AdvanceKeepsHealthy | fourmis.py:122-202 | a Steppable particle (nonnegative maximum speed, guide state in GuideSafe) is moved without raising and stays Steppable |
| Fourmis.AdvanceKeepsSpeed | fourmis.py:155-174 | with an exact square root, a particle within its maximum speed (at most 1) stays within it. Its new velocity is perpendicular to the ground normal at the particle's position |
| Fourmis.SettledSpeed | fourmis.py:155-174 | a particle given the settled velocity and its old maximum speed is within that speed and moves along the ground |
| Fourmis.AdvanceVelocity | fourmis.py:149-174 | an active particle leaves with its composed velocity, clamped, rotation-capped and re-oriented onto the ground, and keeps its maximum speed |
| Fourmis.Accelerate | fourmis.py:119-152 | the velocity becomes the previous velocity plus avoidance scaled by AVOID_STRENGTH, turbulence times (1 - behaviour) and the normalised guide vector times GUIDE_STRENGTH times behaviour. noise_seed.z grows by 0.01. Turbulence is sampled at the old seed plus the location |
| Fourmis.ChangeVelocity | fourmis.py:149-152 | the velocity becomes Compose of the old velocity with the avoidance, turbulence and guide vectors, weighted by behaviour; nothing else changes |
| Fourmis.CapRotation | fourmis.py:158-165 | the velocity becomes LimitRotation of the previous and the clamped velocity |
| Fourmis.Land | fourmis.py:167-178 | the particle is put on the closest ground point, re-oriented by GroundVelocity, then moved by its new velocity |
| Fourmis.Wander | fourmis.py:180-185 | behaviour becomes DriftBehaviour of the old behaviour and the draw |
| Fourmis.FollowGuide | fourmis.py:187-202 | (guide_index, direction) become GuideStep for the guide vertex nearest the new location |
| Fourmis.StepParticle | fourmis.py:116-202 | one loop iteration equals Visit: inactive particles are returned as they are; active ones get Advance, including both exceptions |
| Fourmis.StepAll | fourmis.py:116-202 | the particle loop. If it completes, every particle is Visit of its old self. If particle k raises, the particles before k are visited, k is left partial and the later particles are untouched. If all particles are Steppable, the loop completes and they stay Steppable. With an exact square root, it also keeps them within their speed |
| Fourmis.InactiveUntouched | fourmis.py:116-117 | however the loop ends, inactive particles come back unchanged |
| Fourmis.ParticleSystem.constructor | fourmis.py:63-85 | frame 0, no particles, the scale-dependent constants of ForcesFor |
| Fourmis.ParticleSystem.AddParticles | fourmis.py:95-99 | with at least three guide vertices (or no draws), one particle is appended per draw and the earlier particles are kept. Each new particle is Spawned: it sits on, and heads for, the vertex randint(1, L-2) picks from its draw, built by NewParticle. Otherwise randint raises and nothing is appended. Healthy is kept for a nonnegative scale and normal draws no lower than -10. Calm is kept when every draw has a unit heading and a maximum speed in [0, 1] |
| Fourmis.ParticleSystem.KillParticle | fourmis.py:101-102 | removes the first equal particle, keeping the order of the others. ValueError (ok false, nothing changed) when there is none |
| Fourmis.ParticleSystem.CreateTree | fourmis.py:104-108 | the snapshot holds every particle's location, by index |
| Fourmis.ParticleSystem.Step | fourmis.py:111-204 | frame + 1. The particle count is kept. The snapshot is the positions from before the step. Inactive particles are unchanged. The list relates to the old list as in StepAll. A Healthy system completes and stays Healthy. With an exact square root, a Healthy and Calm system stays Calm |
| Steering.AvoidVector | fourmis.py:133-145 | the avoidance loop equals AvoidSum over the range query, scaled by AVOID_STRENGTH without normalising |
| Steering.AvoidTermUnit | fourmis.py:137-141 | a neighbour at squared offset at least 0.0001 contributes exactly one unit vector |
| Steering.AvoidTermSymmetric | fourmis.py:137-141 | two particles push each other in opposite directions |
| Steering.SumOverAppend | fourmis.py:135-141 | the accumulated sum over a concatenation is the sum of the two sums |
| Steering.SumOverPermutation | fourmis.py:135-141 | the accumulated sum does not depend on the order of the terms |
| Steering.AvoidSumPermutation | fourmis.py:133-141 | the avoidance vector does not depend on the order in which find_range lists neighbours |
| Steering.ClampSpeedBound | fourmis.py:155-156 | after the clamp, the speed is at most MAX_VEL, and exactly MAX_VEL when it was above |
| Steering.RotationScalar | fourmis.py:159-162 | the scalar is at most 0.1 and at most the raw value 0.5 dot + 0.5, and equals one of the two; it is capped from above only |
| Steering.RotationSaturates | fourmis.py:159-165 | for squared speeds summing to at most 1.6, the cap always applies, and the new velocity is 0.1 of the new plus 0.9 of the previous |
| Steering.RotationScalarRange | fourmis.py:159-162 | for squared speeds summing to at most 2, the scalar lies in [0, 0.1] |
| Steering.LimitRotationBound | fourmis.py:158-165 | blending two velocities within a speed bound of at most 1 stays within it |
| Steering.GroundVelocityTangent | fourmis.py:171-174 | the re-oriented velocity is perpendicular to the ground normal |
| Steering.GroundVelocitySpeed | fourmis.py:171-174 | the re-oriented velocity keeps the old speed unless n × (v × n) is zero, in which case it is zero; it never gets faster |
| Steering.SettleBound | fourmis.py:155-174 | clamp, rotation cap and re-orientation together keep a speed bound of at most 1, and leave the velocity tangent to the ground |
| Steering.SpeedBoundFailsAboveOne | fourmis.py:155-174 | with a maximum speed of 1.2, a previous velocity (1.2, 0, 0) and a new one (-1.2, 0, 0), both within it, the rotation scalar is negative and on flat ground the settled velocity is (1.728, 0, 0), faster than the maximum |
| Steering.DriftBehaviour | fourmis.py:181-185 | behaviour ends in [0.8, 0.9]. It equals the drifted value when that is in range. A drifted value below 0.8 becomes exactly 0.8, and one above 0.9 exactly 0.9. From within the range, with a draw in [0, 1), it moves by less than 0.05 |
| Steering.GuideStep | fourmis.py:188-202 | direction stays or flips. If the ant is behind its target (nearest vertex 2 or more away) and not at an end, nothing changes. If caught up, the target advances by direction, unless the next target is vertex 1 or at or past L-1. In that case the direction flips and the target stays. If behind at an end, the direction flips and the target steps back |
| Steering.GuideStepKeepsSafe | fourmis.py:188-202 | GuideSafe is preserved, and every index it allows is valid for the lookup at line 122 |
| Steering.GuideInteriorKept | fourmis.py:188-202 | for L >= 4, a target in [2, L-2] stays in [2, L-2] |
| Steering.GuideLeavesFromOne | fourmis.py:188-202 | from target 1 the target can become 0, and from 0 become -1: [1, L-2] is not preserved |
| Steering.GuideSinkAtMinusTwo | fourmis.py:188-202 | from target -1 the target can become -2, and from -2 every step keeps (-2, -1) |
| Spatial.Nearest | fourmis.py:188 | `guide_tree.find` gives the index of a vertex at least as close as every other (the lowest such index) |
| Spatial.FindRange | fourmis.py:133 | `parts_tree.find_range` gives exactly the snapshot points within the radius, with their multiplicities |
| Spatial.FindRangeHasSelf | fourmis.py:133-139 | a particle's own snapshot entry is always in its range query, where it is skipped by the 0.0001 test |
| PyList.FirstIndex | fourmis.py:102 | the position of the first element equal to x |
| PyList.RemoveFirst | fourmis.py:102 | `list.remove`: None exactly when x is absent. Otherwise one element shorter, elements before the first x kept in place, the later ones shifted down by one, and the multiset less one x |
| Vectors.WithLengthLength | fourmis.py:156 | the length setter gives exactly the requested length, and leaves a zero vector at length zero |
| Vectors.BlendLengthSquared | fourmis.py:164-165 | the squared length of a blend with weight in [0, 1] is at most the blend of the squared lengths |
| Template.NewParticle | particle_system_template.py:28-33 | a template particle starts at the origin, active, with the drawn heading as its velocity |
| Template.Integrate | particle_system_template.py:61-70 | an active particle moves by exactly its velocity, with velocity and active unchanged. An inactive particle is unchanged |
| Template.RunIntegrates | particle_system_template.py:57-70 | after k steps an active particle is at location + k · velocity; an inactive one has not moved |
| Template.ParticleSystem.constructor | particle_system_template.py:38-41 | frame 0 and no particles |
| Template.ParticleSystem.AddParticle | particle_system_template.py:48-51 | one new particle per heading is appended, in order, and the earlier particles are kept |
| Template.ParticleSystem.KillParticle | particle_system_template.py:53-54 | removes the first equal particle, keeping the others in order. ValueError (ok false, nothing changed) when there is none |
| Template.ParticleSystem.Step | particle_system_template.py:57-74 | frame + 1. The count and order are kept. Each particle is Integrate of its old self, so inactive ones are unchanged |

## Left out

- Blender UI and registration are not modelled: the panel, the operator, `register`/`unregister` (fourmis.py:284-340, particle_system_template.py:145-203). They are scene-property plumbing.
- `create_frame` and `main` in both files are not modelled. They create objects and keyframes, read scene settings, seed the generator, print and time. The final `self.create_frame(self.frame)` of each `step` is therefore not modelled.
- Scene side effects of the constructors are not modelled: `primitive_ico_sphere_add`, the instance object lookup, and building and balancing `guide_tree`. The guide is kept as its vertex list, and `find` is defined over it.
- KD-tree internals are not modelled. `find` is the brute-force nearest vertex. Between equally close vertices it picks the lowest index, while the real tree's tie-break is its own. `find_range` returns its points in index order, and AvoidSumPermutation shows the order does not matter for the sum. Only the points of `find_range` are kept, not the distances or indices it also returns.
- Random streams are not modelled. Every draw of `gauss`, `randint`, `random` and `noise.random_unit_vector` is passed in. `randint(lo, hi)` is `lo + pick % (hi - lo + 1)`. `gauss(mu, sigma)` is `mu + sigma * spread`.
- `find_range` is assumed to include a point at exactly the radius. A negative radius (from a negative scale) acts as its absolute value.
- `noise.turbulence_vector` is a function parameter of position, strength and frequency. Its octave, hardness and basis arguments are fixed in the source.
- `closest_point_on_mesh` is a function parameter giving a point and a normal. Its other results are not used.
- Numerics are not modelled. Vectors are triples of mathematical reals, not 32-bit floats. The square root is a parameter whose results are nonnegative; the speed results assume it is exact (`IsSqrt`). `Vector.normalized()` of a zero vector gives zero. The length setter zeroes the vector for length 0, leaves a zero vector unchanged, and raises for a negative length.
- Steering.AvoidTerm: the source divides by the length, and the model normalises instead. The two agree for every vector that reaches that line, whose squared length is at least 0.0001.
- Particle identity is not modelled. Particles are values, so `kill_particle` removes the first structurally equal particle, while Python's `list.remove` compares with `==`, which for these objects is identity.
- `parts_tree` exists only after the first `create_tree`. The model starts the snapshot empty.
- `add_particles(n)` and `add_particle(n)` take the number of particles as the length of the draw sequence. A negative `n`, which `range` treats as zero, is the empty sequence.
- Template.ParticleSystem.Step: `previous_velocity` (particle_system_template.py:64) is computed and never used, so it is not modelled.
- reorder_curve_vertices.py is not part of this model.
