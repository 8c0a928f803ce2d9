/** The particle-system template (particle_system_template.py): the same
    record-and-list design as the ant simulation with every force removed.
    A step advances the frame counter and moves each active particle by its
    velocity. */
module Template {
  import opened Vectors
  import opened PyList

  datatype Particle = Particle(location: Vec3, velocity: Vec3, active: bool)

  /** Particle(): at the origin, active, heading along `heading`, the draw of
      random_unit_vector(). */
  function NewParticle(heading: Vec3): (p: Particle)
    ensures p.active && p.location == Zero && p.velocity == heading
  {
    Particle(Zero, heading, true)
  }

  /** One particle's share of step: an active particle moves by its
      velocity, an inactive one is left alone. */
  function Integrate(p: Particle): (q: Particle)
    ensures q.velocity == p.velocity && q.active == p.active
    ensures p.active ==> Sub(q.location, p.location) == p.velocity
    ensures !p.active ==> q == p
  {
    if p.active then p.(location := Add(p.location, p.velocity)) else p
  }

  /** A particle after k steps. */
  function Run(p: Particle, k: nat): Particle {
    if k == 0 then p else Integrate(Run(p, k - 1))
  }

  /** k steps move an active particle k times its velocity, in a straight
      line, and leave an inactive one where it is. */
  lemma {:induction false} RunIntegrates(p: Particle, k: nat)
    ensures Run(p, k).velocity == p.velocity && Run(p, k).active == p.active
    ensures p.active ==> Run(p, k).location == Add(p.location, Scale(p.velocity, k as real))
    ensures !p.active ==> Run(p, k) == p
  {
    if k > 0 {
      RunIntegrates(p, k - 1);
      var l, v, n := p.location, p.velocity, (k - 1) as real;
      assert Add(Add(l, Scale(v, n)), v) == Add(l, Scale(v, n + 1.0));
    }
  }

  class ParticleSystem {
    var frame: int
    var particles: seq<Particle>

    /** The constructor's scene setup (an ico-sphere, the instance object) is
        not part of this model. */
    constructor()
      ensures frame == 0 && particles == []
    {
      frame := 0;
      particles := [];
    }

    /** add_particle(len(headings)): one new particle per draw of
        random_unit_vector(), appended in order. */
    method AddParticle(headings: seq<Vec3>)
      modifies this
      ensures |particles| == |old(particles)| + |headings|
      ensures particles[..|old(particles)|] == old(particles)
      ensures forall j :: 0 <= j < |headings| ==> particles[|old(particles)| + j] == NewParticle(headings[j])
      ensures frame == old(frame)
    {
      var k := 0;
      while k < |headings|
        invariant 0 <= k <= |headings|
        invariant |particles| == |old(particles)| + k && particles[..|old(particles)|] == old(particles)
        invariant forall j :: 0 <= j < k ==> particles[|old(particles)| + j] == NewParticle(headings[j])
        invariant frame == old(frame)
      {
        particles := particles + [NewParticle(headings[k])];
        k := k + 1;
      }
    }

    /** kill_particle(part): list.remove, which raises ValueError (ok is
        false) when the particle is not there. */
    method KillParticle(part: Particle) returns (ok: bool)
      modifies this
      ensures ok <==> part in old(particles)
      ensures ok ==> Some(particles) == RemoveFirst(old(particles), part)
      ensures !ok ==> particles == old(particles)
      ensures frame == old(frame)
    {
      var r := RemoveFirst(particles, part);
      if r.None? {
        return false;
      }
      particles := r.value;
      return true;
    }

    /** step (without create_frame): the frame counter goes up by one and
        every particle is integrated in place, in list order. */
    method Step()
      modifies this
      ensures frame == old(frame) + 1
      ensures |particles| == |old(particles)|
      ensures forall i :: 0 <= i < |particles| ==> particles[i] == Integrate(old(particles)[i])
    {
      frame := frame + 1;
      var i := 0;
      while i < |particles|
        invariant 0 <= i <= |particles| == |old(particles)|
        invariant frame == old(frame) + 1
        invariant forall j :: 0 <= j < i ==> particles[j] == Integrate(old(particles)[j])
        invariant forall j :: i <= j < |particles| ==> particles[j] == old(particles)[j]
      {
        var part := particles[i];
        if part.active {
          part := part.(location := Add(part.location, part.velocity));
        }
        particles := particles[i := part];
        i := i + 1;
      }
    }
  }
}
