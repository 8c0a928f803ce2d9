/** The ant particle system of fourmis.py: particles that follow a guide
    polyline over a ground mesh, pushed by turbulence and by their
    neighbours. */
module Fourmis {
  import opened Vectors
  import opened PyList
  import opened Spatial
  import opened Steering

  /** An ant. Its fields are updated in place by a step; here a step builds
      the updated record. */
  datatype Particle = Particle(
    maxVel: real,
    location: Vec3,
    velocity: Vec3,
    guideIndex: int,   // index of the guide vertex it heads for (Python indexing)
    noiseSeed: Vec3,
    active: bool,
    direction: int,    // +1 or -1: the way it walks along the guide
    behaviour: real)   // 1 = follow the guide, 0 = follow the turbulence

  /** The random draws one new particle consumes, in the order the source
      makes them. */
  datatype Draw = Draw(
    pick: nat,       // randint(1, L - 2) for the guide index
    spread: real,    // standard normal sample behind gauss()
    heading: Vec3,   // noise.random_unit_vector() for the velocity
    seed: Vec3,      // noise.random_unit_vector() for the noise seed
    coin: nat)       // randint(0, 1) for the direction

  /** `randint(lo, hi)` driven by an arbitrary natural number. */
  function RandInt(lo: int, hi: int, pick: nat): (r: int)
    requires lo <= hi
    ensures lo <= r <= hi
  {
    lo + pick % (hi - lo + 1)
  }

  /** Every value of the range can be drawn. */
  lemma RandIntCovers(lo: int, hi: int, r: int)
    requires lo <= r <= hi
    ensures RandInt(lo, hi, r - lo) == r
  {
  }

  /** A normal sample more than ten standard deviations below a nonnegative
      mean of ten deviations cannot go negative. */
  lemma SpreadNonNegative(target: real, spread: real)
    ensures 0.0 <= target && -10.0 <= spread ==> 0.0 <= target + target / 10.0 * spread
  {
    assert target + target / 10.0 * spread == target * (1.0 + spread / 10.0);
    if 0.0 <= target && -10.0 <= spread {
      MulNonNegative(target, 1.0 + spread / 10.0);
    }
  }

  /** Particle(index, scale, location): maximum speed drawn around
      0.005 * scale with a tenth of that as standard deviation, velocity a
      random heading at that speed, direction +1 or -1, behaviour 0.6. */
  function NewParticle(index: int, scale: real, location: Vec3, d: Draw): (p: Particle)
    ensures p.guideIndex == index && p.location == location
    ensures p.active && p.behaviour == 0.6 && p.noiseSeed == d.seed
    ensures p.direction == 1 || p.direction == -1
    ensures p.maxVel == 0.005 * scale + 0.005 * scale / 10.0 * d.spread
    ensures 0.0 <= scale && -10.0 <= d.spread ==> 0.0 <= p.maxVel
    ensures LengthSquared(p.velocity) == p.maxVel * p.maxVel * LengthSquared(d.heading)
  {
    var target := 0.005 * scale;
    var maxVel := target + target / 10.0 * d.spread;
    SpreadNonNegative(target, d.spread);
    ScaleLengthSquared(d.heading, maxVel);
    Particle(maxVel, location, Scale(d.heading, maxVel), index, d.seed, true,
             RandInt(0, 1, d.coin) * 2 - 1, 0.6)
  }

  /** p is the particle add_particles creates from the draw d: it sits on
      the guide vertex randint(1, L - 2) picks and heads for it. */
  predicate Spawned(p: Particle, guide: seq<Vec3>, scale: real, d: Draw) {
    && |guide| >= 3
    && p.guideIndex == RandInt(1, |guide| - 2, d.pick)
    && p == NewParticle(p.guideIndex, scale, guide[p.guideIndex], d)
  }

  /** A draw whose heading is a unit vector, as random_unit_vector() gives,
      and whose maximum speed lies in [0, 1]. */
  predicate CalmDraw(scale: real, d: Draw) {
    && LengthSquared(d.heading) == 1.0
    && 0.0 <= 0.005 * scale + 0.005 * scale / 10.0 * d.spread <= 1.0
  }

  /** A particle spawned from such a draw moves exactly at its maximum
      speed, so it is within it. */
  lemma SpawnedCalm(p: Particle, guide: seq<Vec3>, scale: real, d: Draw)
    requires Spawned(p, guide, scale, d) && CalmDraw(scale, d)
    ensures WithinSpeed(p)
    ensures LengthSquared(p.velocity) == p.maxVel * p.maxVel
  {
    var m := p.maxVel;
    assert LengthSquared(p.velocity) == m * m * LengthSquared(d.heading);
  }

  /** The constants of Particle_system.__init__, all proportional to scale. */
  datatype Forces = Forces(
    guideStrength: real,
    turbulenceFrequency: real,
    turbulenceStrength: real,
    avoidThreshold: real,
    avoidStrength: real)

  function ForcesFor(scale: real): (f: Forces)
    ensures 0.0 <= scale ==>
      && 0.0 <= f.guideStrength && 0.0 <= f.turbulenceFrequency && 0.0 <= f.turbulenceStrength
      && 0.0 <= f.avoidThreshold && 0.0 <= f.avoidStrength
  {
    Forces(1.0 * scale, 10.0 * scale, 1.0 * scale, 0.01 * scale, 0.2 * scale)
  }

  /** What closest_point_on_mesh reports: the closest point and the normal there. */
  datatype SurfacePoint = SurfacePoint(point: Vec3, normal: Vec3)

  /** The scene the particles live in: the guide vertices in index order and
      the ground's closest-point query. */
  datatype World = World(guide: seq<Vec3>, ground: Vec3 -> SurfacePoint)

  /** The numeric library: square root and noise.turbulence_vector(position,
      amplitude scale, frequency scale) for the fixed octaves and basis. */
  datatype Lib = Lib(sqrt: Root, turbulence: (Vec3, real, real) -> Vec3)

  datatype StepError = IndexError | ValueError

  /** A particle's fate in one step: moved, or an exception with the
      particle as far as it had been updated. */
  datatype Update = Moved(next: Particle) | Raised(partial: Particle, error: StepError)

  /** The velocity after lines 119-152, before any limit. */
  function Composed(lib: Lib, world: World, forces: Forces, tree: seq<Vec3>, p: Particle): Vec3
    requires InBounds(p.guideIndex, |world.guide|)
  {
    var guideVector := Scale(Normalized(lib.sqrt, Sub(At(world.guide, p.guideIndex), p.location)), forces.guideStrength);
    var turbulence := lib.turbulence(Add(p.noiseSeed, p.location), forces.turbulenceStrength, forces.turbulenceFrequency);
    var avoid := Scale(AvoidSum(lib.sqrt, p.location, FindRange(tree, p.location, forces.avoidThreshold)), forces.avoidStrength);
    Compose(p.velocity, avoid, turbulence, guideVector, p.behaviour)
  }

  /** The body of the particle loop for an active particle (fourmis.py:119-202).
      `tree` holds the positions snapshotted at the start of the step and
      `draw` is the random() sample of line 181. */
  function Advance(lib: Lib, world: World, forces: Forces, tree: seq<Vec3>, p: Particle, draw: real): (u: Update)
    ensures !InBounds(p.guideIndex, |world.guide|) <==> u == Raised(p, IndexError)
    ensures u.Raised? && u.error == ValueError <==> InBounds(p.guideIndex, |world.guide|) && p.maxVel < 0.0
    ensures u.Raised? ==> u.partial.location == p.location && u.partial.guideIndex == p.guideIndex
    ensures u.Moved? ==>
      var q := u.next;
      && q.active == p.active && q.maxVel == p.maxVel
      && q.noiseSeed == Vec3(p.noiseSeed.x, p.noiseSeed.y, p.noiseSeed.z + 0.01)
      && q.location == Add(world.ground(p.location).point, q.velocity)
      && 0.8 <= q.behaviour <= 0.9
      && (q.guideIndex, q.direction)
         == GuideStep(p.guideIndex, p.direction, Nearest(world.guide, q.location), |world.guide|)
  {
    if !InBounds(p.guideIndex, |world.guide|) then Raised(p, IndexError)
    else
      var seed := Vec3(p.noiseSeed.x, p.noiseSeed.y, p.noiseSeed.z + 0.01);
      var v := Composed(lib, world, forces, tree, p);
      if p.maxVel < 0.0 then Raised(p.(velocity := v, noiseSeed := seed), ValueError)
      else
        var surface := world.ground(p.location);
        var velocity := Settle(lib.sqrt, p.velocity, v, p.maxVel, surface.normal);
        var location := Add(surface.point, velocity);
        var guide := GuideStep(p.guideIndex, p.direction, Nearest(world.guide, location), |world.guide|);
        Moved(p.(location := location, velocity := velocity, noiseSeed := seed,
                 behaviour := DriftBehaviour(p.behaviour, draw),
                 guideIndex := guide.0, direction := guide.1))
  }

  /** One iteration of the particle loop: inactive particles are skipped. */
  function Visit(lib: Lib, world: World, forces: Forces, tree: seq<Vec3>, p: Particle, draw: real): Update {
    if p.active then Advance(lib, world, forces, tree, p, draw) else Moved(p)
  }

  /** The conditions under which a particle can always be stepped: a
      nonnegative maximum speed, and a guide state GuideSafe allows. */
  predicate Steppable(p: Particle, count: int) {
    0.0 <= p.maxVel && GuideSafe(p.guideIndex, p.direction, count)
  }

  /** A particle moving no faster than its maximum speed, which is at most 1. */
  predicate WithinSpeed(p: Particle) {
    0.0 <= p.maxVel <= 1.0 && SpeedAtMost(p.velocity, p.maxVel)
  }

  predicate AllSteppable(ps: seq<Particle>, count: int) {
    forall i :: 0 <= i < |ps| ==> Steppable(ps[i], count)
  }

  predicate AllWithinSpeed(ps: seq<Particle>) {
    forall i :: 0 <= i < |ps| ==> WithinSpeed(ps[i])
  }

  /** A steppable particle never raises and stays steppable. */
  lemma AdvanceKeepsHealthy(lib: Lib, world: World, forces: Forces, tree: seq<Vec3>, p: Particle, draw: real)
    requires Steppable(p, |world.guide|)
    ensures Visit(lib, world, forces, tree, p, draw).Moved?
    ensures Steppable(Visit(lib, world, forces, tree, p, draw).next, |world.guide|)
  {
    if p.active {
      var u := Advance(lib, world, forces, tree, p, draw);
      var q := u.next;
      var nearest := Nearest(world.guide, q.location);
      GuideStepKeepsSafe(p.guideIndex, p.direction, nearest, |world.guide|);
    }
  }

  /** Speed and ground contact: with an exact square root and a maximum speed
      of at most 1, a particle that moves no faster than its maximum keeps
      doing so, and its new velocity is tangent to the ground at the point
      it was put on. */
  lemma AdvanceKeepsSpeed(lib: Lib, world: World, forces: Forces, tree: seq<Vec3>, p: Particle, draw: real)
    requires IsSqrt(lib.sqrt)
    requires WithinSpeed(p)
    requires InBounds(p.guideIndex, |world.guide|)
    ensures Visit(lib, world, forces, tree, p, draw).Moved?
    ensures WithinSpeed(Visit(lib, world, forces, tree, p, draw).next)
    ensures p.active ==>
      Dot(Visit(lib, world, forces, tree, p, draw).next.velocity, world.ground(p.location).normal) == 0.0
  {
    if p.active {
      AdvanceVelocity(lib, world, forces, tree, p, draw);
      SettledSpeed(lib.sqrt, p, Visit(lib, world, forces, tree, p, draw).next,
                   Composed(lib, world, forces, tree, p), world.ground(p.location).normal);
    }
  }

  /** A particle that leaves with the settled velocity and its old maximum
      speed is still within that speed, and moves along the ground. */
  lemma SettledSpeed(sqrt: Root, p: Particle, next: Particle, composed: Vec3, normal: Vec3)
    requires IsSqrt(sqrt) && WithinSpeed(p)
    requires next.maxVel == p.maxVel
    requires next.velocity == Settle(sqrt, p.velocity, composed, p.maxVel, normal)
    ensures WithinSpeed(next) && Dot(next.velocity, normal) == 0.0
  {
    SettleBound(sqrt, p.velocity, composed, p.maxVel, normal);
  }

  /** The velocity a moving particle leaves with is the composed one, settled. */
  lemma AdvanceVelocity(lib: Lib, world: World, forces: Forces, tree: seq<Vec3>, p: Particle, draw: real)
    requires InBounds(p.guideIndex, |world.guide|)
    requires 0.0 <= p.maxVel && p.active
    ensures Visit(lib, world, forces, tree, p, draw).Moved?
    ensures Visit(lib, world, forces, tree, p, draw).next.maxVel == p.maxVel
    ensures Visit(lib, world, forces, tree, p, draw).next.velocity
            == Settle(lib.sqrt, p.velocity, Composed(lib, world, forces, tree, p), p.maxVel, world.ground(p.location).normal)
  {
  }

  /** Lines 119-152: guide, turbulence and avoidance vectors added to the
      velocity; the noise seed moves up by 0.01. */
  method Accelerate(lib: Lib, world: World, forces: Forces, tree: seq<Vec3>, part: Particle)
    returns (p: Particle)
    requires InBounds(part.guideIndex, |world.guide|)
    ensures p == part.(noiseSeed := Vec3(part.noiseSeed.x, part.noiseSeed.y, part.noiseSeed.z + 0.01),
                       velocity := Composed(lib, world, forces, tree, part))
  {
    // guide vector
    var guideVector := Sub(At(world.guide, part.guideIndex), part.location);
    guideVector := Scale(Normalized(lib.sqrt, guideVector), forces.guideStrength);
    // turbulence vector
    var turbulence := lib.turbulence(Add(part.noiseSeed, part.location),
                                     forces.turbulenceStrength, forces.turbulenceFrequency);
    p := part.(noiseSeed := part.noiseSeed.(z := part.noiseSeed.z + 0.01));
    // boid-like vector
    var tooClose := FindRange(tree, p.location, forces.avoidThreshold);
    var avoidVector := AvoidVector(lib.sqrt, p.location, tooClose, forces.avoidStrength);
    p := ChangeVelocity(p, avoidVector, turbulence, guideVector);
    assert Composed(lib, world, forces, tree, part)
           == Compose(part.velocity, avoidVector, turbulence, guideVector, part.behaviour);
  }

  /** Lines 149-152: the three additions to the velocity. */
  method ChangeVelocity(part: Particle, avoid: Vec3, turbulence: Vec3, guide: Vec3) returns (p: Particle)
    ensures p == part.(velocity := Compose(part.velocity, avoid, turbulence, guide, part.behaviour))
  {
    p := part.(velocity := Add(part.velocity, avoid));
    p := p.(velocity := Add(p.velocity, Scale(turbulence, 1.0 - p.behaviour)));
    p := p.(velocity := Add(p.velocity, Scale(guide, p.behaviour)));
  }

  /** Lines 158-165: blend the new velocity with the previous one. */
  method CapRotation(previousVelocity: Vec3, part: Particle) returns (p: Particle)
    ensures p == part.(velocity := LimitRotation(previousVelocity, part.velocity))
  {
    var rotationScalar := Dot(previousVelocity, part.velocity) * 0.5 + 0.5;
    if rotationScalar > 0.1 {
      rotationScalar := 0.1;
    }
    p := part.(velocity := Scale(part.velocity, rotationScalar));
    p := p.(velocity := Add(p.velocity, Scale(previousVelocity, 1.0 - rotationScalar)));
  }

  /** Lines 168-178: move onto the ground, turn the velocity parallel to it
      at the same speed, and take the step. */
  method Land(sqrt: Root, ground: Vec3 -> SurfacePoint, part: Particle) returns (p: Particle)
    ensures p == part.(location := Add(ground(part.location).point,
                                       GroundVelocity(sqrt, ground(part.location).normal, part.velocity)),
                       velocity := GroundVelocity(sqrt, ground(part.location).normal, part.velocity))
  {
    var closest := ground(part.location);
    p := part.(location := closest.point);
    var velNorm := Length(sqrt, p.velocity);
    var inter := Cross(p.velocity, closest.normal);
    p := p.(velocity := Cross(closest.normal, inter));
    p := p.(velocity := WithLength(sqrt, p.velocity, velNorm));
    p := p.(location := Add(p.location, p.velocity));
  }

  /** Lines 181-185: random walk of the behaviour, clamped. */
  method Wander(part: Particle, draw: real) returns (p: Particle)
    ensures p == part.(behaviour := DriftBehaviour(part.behaviour, draw))
  {
    p := part.(behaviour := part.behaviour + draw * 0.1 - 0.05);
    if p.behaviour < 0.8 {
      p := p.(behaviour := 0.8);
    }
    if p.behaviour > 0.9 {
      p := p.(behaviour := 0.9);
    }
  }

  /** Lines 188-202: next guide vertex when close enough, turn round at the ends. */
  method FollowGuide(guide: seq<Vec3>, part: Particle) returns (p: Particle)
    requires |guide| > 0
    ensures var next := GuideStep(part.guideIndex, part.direction, Nearest(guide, part.location), |guide|);
            p == part.(guideIndex := next.0, direction := next.1)
  {
    var ind := Nearest(guide, part.location);
    p := part;
    if Abs(ind - p.guideIndex) < 2 {
      p := p.(guideIndex := p.guideIndex + p.direction);
    }
    if p.guideIndex >= |guide| - 1 || p.guideIndex == 1 {
      p := p.(direction := -p.direction);
      p := p.(guideIndex := p.guideIndex + p.direction);
    }
  }

  /** The loop body of fourmis.py:117-202 for one particle. */
  method StepParticle(lib: Lib, world: World, forces: Forces, tree: seq<Vec3>, part: Particle, draw: real)
    returns (u: Update)
    ensures u == Visit(lib, world, forces, tree, part, draw)
  {
    if !part.active {
      return Moved(part);
    }
    var previousVelocity := part.velocity;
    if !InBounds(part.guideIndex, |world.guide|) {
      return Raised(part, IndexError);
    }
    var p := Accelerate(lib, world, forces, tree, part);
    // limit velocity; the length setter rejects a negative length
    if Length(lib.sqrt, p.velocity) > p.maxVel {
      if p.maxVel < 0.0 {
        return Raised(p, ValueError);
      }
      p := p.(velocity := WithLength(lib.sqrt, p.velocity, p.maxVel));
    }
    p := CapRotation(previousVelocity, p);
    p := Land(lib.sqrt, world.ground, p);
    p := Wander(p, draw);
    p := FollowGuide(world.guide, p);
    return Moved(p);
  }

  /** How a call to step ends: normally, or with the exception raised while
      handling the particle at index `at`. */
  datatype StepOutcome = Completed | Failed(at: nat, error: StepError)

  /** The particle loop of fourmis.py:117-202 over the list `start`, with
      `tree` the snapshot of its positions. The list comes back with the
      particles handled so far updated, and the rest as they were. */
  method StepAll(lib: Lib, world: World, forces: Forces, tree: seq<Vec3>, start: seq<Particle>, walk: seq<real>)
    returns (parts: seq<Particle>, outcome: StepOutcome)
    requires |walk| == |start|
    ensures |parts| == |start|
    ensures outcome.Completed? ==> forall i :: 0 <= i < |parts| ==>
      Visit(lib, world, forces, tree, start[i], walk[i]) == Moved(parts[i])
    ensures outcome.Failed? ==>
      && outcome.at < |parts|
      && (forall i :: 0 <= i < outcome.at ==>
            Visit(lib, world, forces, tree, start[i], walk[i]) == Moved(parts[i]))
      && Visit(lib, world, forces, tree, start[outcome.at], walk[outcome.at])
         == Raised(parts[outcome.at], outcome.error)
      && (forall i :: outcome.at < i < |parts| ==> parts[i] == start[i])
    ensures AllSteppable(start, |world.guide|) ==> outcome.Completed? && AllSteppable(parts, |world.guide|)
    ensures IsSqrt(lib.sqrt) && AllSteppable(start, |world.guide|) && AllWithinSpeed(start)
            ==> AllWithinSpeed(parts)
  {
    ghost var healthy := AllSteppable(start, |world.guide|);
    ghost var calm := IsSqrt(lib.sqrt) && healthy && AllWithinSpeed(start);
    parts := start;
    var i := 0;
    while i < |parts|
      invariant 0 <= i <= |parts| == |start|
      invariant forall j :: 0 <= j < i ==>
        Visit(lib, world, forces, tree, start[j], walk[j]) == Moved(parts[j])
      invariant forall j :: i <= j < |parts| ==> parts[j] == start[j]
      invariant healthy ==> AllSteppable(parts, |world.guide|)
      invariant calm ==> AllWithinSpeed(parts)
    {
      var u := StepParticle(lib, world, forces, tree, parts[i], walk[i]);
      if u.Raised? {
        parts := parts[i := u.partial];
        return parts, Failed(i, u.error);
      }
      if healthy {
        AdvanceKeepsHealthy(lib, world, forces, tree, start[i], walk[i]);
        if calm {
          AdvanceKeepsSpeed(lib, world, forces, tree, start[i], walk[i]);
        }
      }
      parts := parts[i := u.next];
      i := i + 1;
    }
    return parts, Completed;
  }

  /** Whichever way the loop ends, inactive particles come back unchanged. */
  lemma InactiveUntouched(lib: Lib, world: World, forces: Forces, tree: seq<Vec3>, start: seq<Particle>,
                          walk: seq<real>, parts: seq<Particle>, outcome: StepOutcome)
    requires |walk| == |start| == |parts|
    requires outcome.Completed? ==> forall i :: 0 <= i < |parts| ==>
      Visit(lib, world, forces, tree, start[i], walk[i]) == Moved(parts[i])
    requires outcome.Failed? ==>
      && outcome.at < |parts|
      && (forall i :: 0 <= i < outcome.at ==>
            Visit(lib, world, forces, tree, start[i], walk[i]) == Moved(parts[i]))
      && Visit(lib, world, forces, tree, start[outcome.at], walk[outcome.at])
         == Raised(parts[outcome.at], outcome.error)
      && (forall i :: outcome.at < i < |parts| ==> parts[i] == start[i])
    ensures forall i :: 0 <= i < |parts| && !start[i].active ==> parts[i] == start[i]
  {
    forall i | 0 <= i < |parts| && !start[i].active
      ensures parts[i] == start[i]
    {
      assert Visit(lib, world, forces, tree, start[i], walk[i]) == Moved(start[i]);
    }
  }

  class ParticleSystem {
    const world: World
    const scale: real
    const forces: Forces
    var frame: int
    var particles: seq<Particle>
    /** Particle positions as of the last create_tree, the data of the KD tree. */
    var partsTree: seq<Vec3>

    /** Every particle can be stepped without an exception, forever. */
    ghost predicate Healthy()
      reads this
    {
      AllSteppable(particles, |world.guide|)
    }

    /** Every particle moves no faster than its maximum speed, which is at most 1. */
    ghost predicate Calm()
      reads this
    {
      AllWithinSpeed(particles)
    }

    constructor(guide: seq<Vec3>, ground: Vec3 -> SurfacePoint, scale: real)
      ensures world == World(guide, ground) && this.scale == scale
      ensures forces == ForcesFor(scale)
      ensures frame == 0 && particles == [] && partsTree == []
    {
      this.world := World(guide, ground);
      this.scale := scale;
      this.forces := ForcesFor(scale);
      frame := 0;
      particles := [];
      partsTree := [];
    }

    /** add_particles(len(draws)): each new particle starts on a random guide
        vertex from 1 to L - 2. With fewer than three guide vertices randint
        raises before anything is appended (ok is false). */
    method AddParticles(draws: seq<Draw>) returns (ok: bool)
      modifies this
      ensures ok <==> |draws| == 0 || |world.guide| >= 3
      ensures !ok ==> particles == old(particles)
      ensures ok ==> |particles| == |old(particles)| + |draws| && particles[..|old(particles)|] == old(particles)
      ensures ok ==> forall j :: |old(particles)| <= j < |particles| ==>
        Spawned(particles[j], world.guide, scale, draws[j - |old(particles)|])
      ensures ok && old(Healthy()) && 0.0 <= scale && (forall i :: 0 <= i < |draws| ==> -10.0 <= draws[i].spread)
              ==> Healthy()
      ensures old(Calm()) && (forall i :: 0 <= i < |draws| ==> CalmDraw(scale, draws[i])) ==> Calm()
      ensures frame == old(frame) && partsTree == old(partsTree)
    {
      if |draws| > 0 && |world.guide| < 3 {
        return false;
      }
      var k := 0;
      while k < |draws|
        invariant 0 <= k <= |draws|
        invariant |particles| == |old(particles)| + k && particles[..|old(particles)|] == old(particles)
        invariant forall j :: |old(particles)| <= j < |particles| ==>
          Spawned(particles[j], world.guide, scale, draws[j - |old(particles)|])
        invariant old(Healthy()) && 0.0 <= scale && (forall i :: 0 <= i < |draws| ==> -10.0 <= draws[i].spread)
                  ==> Healthy()
        invariant old(Calm()) && (forall i :: 0 <= i < |draws| ==> CalmDraw(scale, draws[i])) ==> Calm()
        invariant frame == old(frame) && partsTree == old(partsTree)
      {
        var ind := RandInt(1, |world.guide| - 2, draws[k].pick);
        var part := NewParticle(ind, scale, world.guide[ind], draws[k]);
        if CalmDraw(scale, draws[k]) {
          SpawnedCalm(part, world.guide, scale, draws[k]);
        }
        particles := particles + [part];
        k := k + 1;
      }
      return true;
    }

    /** kill_particle(part): list.remove, which raises ValueError (ok is
        false) when the particle is not there. */
    method KillParticle(part: Particle) returns (ok: bool)
      modifies this
      ensures ok <==> part in old(particles)
      ensures ok ==> Some(particles) == RemoveFirst(old(particles), part)
      ensures !ok ==> particles == old(particles)
      ensures frame == old(frame) && partsTree == old(partsTree)
    {
      var r := RemoveFirst(particles, part);
      if r.None? {
        return false;
      }
      particles := r.value;
      return true;
    }

    /** create_tree: snapshot every particle's position, by index. */
    method CreateTree()
      modifies this
      ensures |partsTree| == |particles|
      ensures forall i :: 0 <= i < |particles| ==> partsTree[i] == particles[i].location
      ensures particles == old(particles) && frame == old(frame)
    {
      var tree := [];
      var i := 0;
      while i < |particles|
        invariant 0 <= i <= |particles|
        invariant |tree| == i
        invariant forall j :: 0 <= j < i ==> tree[j] == particles[j].location
      {
        tree := tree + [particles[i].location];
        i := i + 1;
      }
      partsTree := tree;
    }

    /** step (without create_frame): advance the frame counter, snapshot the
        positions, then move every particle in list order; `walk[i]` is the
        random() sample used by particle i. An exception stops the loop with
        the particle it was raised on partly updated and the later ones
        untouched. */
    method Step(lib: Lib, walk: seq<real>) returns (outcome: StepOutcome)
      requires |walk| == |particles|
      modifies this
      ensures frame == old(frame) + 1
      ensures |particles| == |old(particles)|
      // the avoidance queries see the positions from before the step
      ensures |partsTree| == |old(particles)|
      ensures forall i :: 0 <= i < |partsTree| ==> partsTree[i] == old(particles)[i].location
      ensures forall i :: 0 <= i < |particles| && !old(particles)[i].active ==> particles[i] == old(particles)[i]
      ensures outcome.Completed? ==> forall i :: 0 <= i < |particles| ==>
        Visit(lib, world, forces, partsTree, old(particles)[i], walk[i]) == Moved(particles[i])
      ensures outcome.Failed? ==>
        && outcome.at < |particles|
        && (forall i :: 0 <= i < outcome.at ==>
              Visit(lib, world, forces, partsTree, old(particles)[i], walk[i]) == Moved(particles[i]))
        && Visit(lib, world, forces, partsTree, old(particles)[outcome.at], walk[outcome.at])
           == Raised(particles[outcome.at], outcome.error)
        && (forall i :: outcome.at < i < |particles| ==> particles[i] == old(particles)[i])
      ensures old(Healthy()) ==> outcome.Completed? && Healthy()
      ensures IsSqrt(lib.sqrt) && old(Healthy()) && old(Calm()) ==> Calm()
    {
      frame := frame + 1;
      CreateTree();
      var parts;
      parts, outcome := StepAll(lib, world, forces, partsTree, particles, walk);
      InactiveUntouched(lib, world, forces, partsTree, particles, walk, parts, outcome);
      particles := parts;
    }
  }
}
