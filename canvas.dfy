/**
 * The canvas component's mutable state: the particle pool, the shared
 * target and its interaction flag, and the supernova phase with its last
 * token and pending deadlines. The component's refs are the fields of
 * `Simulation`; its effects and handlers are the methods.
 */
module Canvas {
  import opened Types
  import opened Supernova
  import opened Particles
  import opened Dispatch

  /** What one frame decides for one particle. */
  datatype Step = Step(branch: Branch, colour: Colour, primitive: Primitive)

  /** The motion of each particle of `ps`, in pool order. */
  ghost function Motions(ps: seq<Particle>): (r: seq<Motion>)
    reads ps
    ensures |r| == |ps| && forall j :: 0 <= j < |ps| ==> r[j] == ps[j].Kinematics()
  {
    if ps == [] then [] else [ps[0].Kinematics()] + Motions(ps[1..])
  }

  /** The glyph of each particle of `ps`, in pool order. */
  ghost function Glyphs(ps: seq<Particle>): (r: seq<string>)
    reads ps
    ensures |r| == |ps| && forall j :: 0 <= j < |ps| ==> r[j] == ps[j].glyph
  {
    if ps == [] then [] else [ps[0].glyph] + Glyphs(ps[1..])
  }

  /** Each particle of `ps` moves as in `before`, except that particle `j` has the velocity `impulse(j)`. */
  ghost predicate Kicked(ps: seq<Particle>, before: seq<Motion>, impulse: nat -> Velocity)
    reads ps
  {
    |before| == |ps| &&
    forall j :: 0 <= j < |ps| ==> ps[j].Kinematics() == before[j].(vx := impulse(j).vx, vy := impulse(j).vy)
  }

  class Simulation {
    var particles: seq<Particle>
    /** The canvas size, which the resize handler copies from the window. */
    var width: real
    var height: real
    /** The point the particles are drawn to. */
    var target: Point
    /** Set by the first accepted mouse or touch move and never cleared. */
    var interacting: bool
    var phase: Phase
    var last: int
    var pending: seq<Deadline>

    ghost predicate Valid()
      reads this`particles
    {
      Distinct(particles)
    }

    /** The supernova state as a value. */
    function Machine(): Machine
      reads this
    {
      Supernova.Machine(phase, last, pending)
    }

    /** Every particle carries a glyph of the alphabet of mode `m`. */
    ghost predicate Lettered(m: ParticleMode)
      reads this, particles
    {
      forall j :: 0 <= j < |particles| ==> particles[j].glyph in Alphabet(m)
    }

    /**
     * Mounting: the resize handler runs once on a window of `innerWidth` by
     * `innerHeight`, then the pool is created on a screen of `screenWidth`
     * by `screenHeight`, the `k`-th particle from the draws `seeds(k)`.
     */
    constructor Mount(innerWidth: real, innerHeight: real, screenWidth: real, screenHeight: real,
                      c: Config, seeds: nat -> Seeds)
      ensures Valid() && |particles| == c.particleCount
      ensures forall k :: 0 <= k < |particles| ==>
        fresh(particles[k]) && Born(particles[k], screenWidth, screenHeight, c.particleSize, c.mode, seeds(k))
      ensures Lettered(c.mode)
      ensures width == innerWidth && height == innerHeight
      ensures target == Point(innerWidth / 2.0, innerHeight / 2.0) && !interacting
      ensures Machine() == Initial
    {
      width, height := innerWidth, innerHeight;
      target := Point(innerWidth / 2.0, innerHeight / 2.0);
      interacting := false;
      phase, last, pending := Normal, 0, [];
      new;
      var ps := SpawnAll(c.particleCount, screenWidth, screenHeight, c.particleSize, c.mode, seeds);
      particles := ps;
    }

    /**
     * The first half of `initParticles`: grows the pool to `n` by appending
     * particles made from `seeds(0)`, `seeds(1)`, ..., or truncates its tail.
     */
    method Adjust(n: nat, screenWidth: real, screenHeight: real, size: real, m: ParticleMode, seeds: nat -> Seeds)
      requires Valid()
      modifies this`particles
      ensures Valid() && |particles| == n
      ensures forall j :: 0 <= j < n && j < |old(particles)| ==> particles[j] == old(particles[j])
      ensures forall j :: |old(particles)| <= j < n ==>
        fresh(particles[j]) && Born(particles[j], screenWidth, screenHeight, size, m, seeds(j - |old(particles)|))
    {
      if |particles| < n {
        var added := SpawnAll(n - |particles|, screenWidth, screenHeight, size, m, seeds);
        particles := particles + added;
      } else if |particles| > n {
        particles := particles[..n];
      }
    }

    /** The second half of `initParticles`: re-letters particle `j` from the draw `letters(j)`. */
    method Reletter(m: ParticleMode, letters: nat -> Unit)
      requires Valid()
      modifies particles
      ensures forall j :: 0 <= j < |particles| ==> particles[j].glyph == GlyphFor(m, letters(j))
      ensures forall j :: 0 <= j < |particles| ==> particles[j].Kinematics() == old(particles[j].Kinematics())
    {
      var i := 0;
      while i < |particles|
        invariant 0 <= i <= |particles|
        invariant forall j :: 0 <= j < i ==> particles[j].glyph == GlyphFor(m, letters(j))
        invariant forall j :: 0 <= j < |particles| ==> particles[j].Kinematics() == old(particles[j].Kinematics())
      {
        particles[i].SetGlyph(m, letters(i));
        i := i + 1;
      }
    }

    /**
     * `initParticles` for configuration `c`: the pool has exactly
     * `c.particleCount` particles, the kept ones in their old order with
     * their motion untouched, and every particle is lettered for `c.mode`.
     */
    method InitParticles(c: Config, screenWidth: real, screenHeight: real,
                         seeds: nat -> Seeds, letters: nat -> Unit)
      requires Valid()
      modifies this`particles, particles
      ensures Valid() && |particles| == c.particleCount
      ensures forall j :: 0 <= j < |particles| && j < |old(particles)| ==>
        particles[j] == old(particles[j]) && particles[j].Kinematics() == old(particles[j].Kinematics())
      ensures forall j :: |old(particles)| <= j < |particles| ==>
        && fresh(particles[j])
        && particles[j].Kinematics() == SpawnMotion(screenWidth, screenHeight, seeds(j - |old(particles)|))
        && particles[j].Fixed() == SpawnTraits(screenWidth, c.particleSize, seeds(j - |old(particles)|))
      ensures forall j :: 0 <= j < |particles| ==> particles[j].glyph == GlyphFor(c.mode, letters(j))
      ensures Lettered(c.mode)
    {
      Adjust(c.particleCount, screenWidth, screenHeight, c.particleSize, c.mode, seeds);
      Reletter(c.mode, letters);
    }

    /** Every particle's velocity becomes its impulse; nothing else changes. */
    method ExplodeAll(impulse: nat -> Velocity)
      requires Valid()
      modifies particles
      ensures particles == old(particles)
      ensures forall j :: 0 <= j < |particles| ==>
        particles[j].Kinematics() == old(particles[j].Kinematics()).(vx := impulse(j).vx, vy := impulse(j).vy)
      ensures forall j :: 0 <= j < |particles| ==> particles[j].glyph == old(particles[j].glyph)
    {
      var i := 0;
      while i < |particles|
        invariant 0 <= i <= |particles|
        invariant forall j :: 0 <= j < i ==>
          particles[j].Kinematics() == old(particles[j].Kinematics()).(vx := impulse(j).vx, vy := impulse(j).vy)
        invariant forall j :: i <= j < |particles| ==> particles[j].Kinematics() == old(particles[j].Kinematics())
        invariant forall j :: 0 <= j < |particles| ==> particles[j].glyph == old(particles[j].glyph)
      {
        particles[i].Explode(impulse(i));
        i := i + 1;
      }
    }

    /** The trigger effect, run when the token prop changes. */
    method OnTrigger(token: int, now: int)
      modifies this`phase, this`last, this`pending
      ensures Machine() == Trigger(old(Machine()), token, now)
    {
      if token != 0 && token != last {
        last := token;
        phase := Gathering;
        pending := pending + [Deadline(now + Dwell, Burst)];
      }
    }

    /** Runs the callback of pending deadline `k` and takes it off the queue. */
    method FireDeadline(k: nat, impulse: nat -> Velocity)
      requires Valid() && k < |pending|
      modifies this`phase, this`pending, particles
      ensures particles == old(particles) && Machine() == Fire(old(Machine()), k)
      ensures old(pending[k].kind) == Burst ==> Kicked(particles, old(Motions(particles)), impulse)
      ensures old(pending[k].kind) == Settle ==> Motions(particles) == old(Motions(particles))
      ensures Glyphs(particles) == old(Glyphs(particles))
    {
      var d := pending[k];
      match d.kind {
        case Burst =>
          ExplodeAll(impulse);
          phase := Exploding;
          pending := Remove(pending, k) + [Deadline(d.due + Dwell, Settle)];
        case Settle =>
          phase := Normal;
          pending := Remove(pending, k);
      }
    }

    /**
     * Fires the next deadline due by `now`. `exploded` says whether an
     * earlier deadline of the same clock advance was a burst, which has left
     * the motions `start` kicked; `fired` says the same after this one.
     */
    method FireNext(now: int, impulse: nat -> Velocity, ghost start: seq<Motion>, exploded: bool)
      returns (fired: bool)
      requires Valid() && NextDue(pending, now).Some?
      requires exploded ==> Kicked(particles, start, impulse)
      requires !exploded ==> Motions(particles) == start
      modifies this`phase, this`pending, particles
      ensures particles == old(particles) && Weight(pending) < old(Weight(pending))
      ensures var before, after := Run(old(Machine()), now), Run(Machine(), now);
        Outcome(before.machine, exploded || before.burst) == Outcome(after.machine, fired || after.burst)
      ensures fired ==> Kicked(particles, start, impulse)
      ensures !fired ==> Motions(particles) == start
      ensures Glyphs(particles) == old(Glyphs(particles))
    {
      var k := NextDue(pending, now).value;
      var burst := pending[k].kind == Burst;
      ghost var mid := Motions(particles);
      RunFiresNext(Machine(), now, k);
      FireDeadline(k, impulse);
      if burst && exploded {
        forall j | 0 <= j < |particles|
          ensures particles[j].Kinematics() == start[j].(vx := impulse(j).vx, vy := impulse(j).vy)
        {
          assert mid[j] == start[j].(vx := impulse(j).vx, vy := impulse(j).vy);
        }
      }
      fired := exploded || burst;
    }

    /**
     * Advancing the clock to `now`: runs every deadline due by then,
     * earliest first. A burst gives particle `j` the velocity `impulse(j)`;
     * without one the particles are untouched.
     */
    method Tick(now: int, impulse: nat -> Velocity)
      requires Valid()
      modifies this`phase, this`pending, particles
      ensures Machine() == Run(old(Machine()), now).machine
      ensures Run(old(Machine()), now).burst ==> Kicked(particles, old(Motions(particles)), impulse)
      ensures !Run(old(Machine()), now).burst ==> Motions(particles) == old(Motions(particles))
      ensures Glyphs(particles) == old(Glyphs(particles))
    {
      ghost var start := Motions(particles);
      var exploded := false;
      while NextDue(pending, now).Some?
        invariant Valid()
        invariant Run(old(Machine()), now) == Outcome(Run(Machine(), now).machine, exploded || Run(Machine(), now).burst)
        invariant exploded ==> Kicked(particles, start, impulse)
        invariant !exploded ==> Motions(particles) == start
        invariant Glyphs(particles) == old(Glyphs(particles))
        decreases Weight(pending)
      {
        exploded := FireNext(now, impulse, start, exploded);
      }
    }

    /** A mouse or touch move to `p`. */
    method MouseMove(p: Point)
      modifies this`target, this`interacting
      ensures phase == Gathering ==> target == old(target) && interacting == old(interacting)
      ensures phase != Gathering ==> target == p && interacting
    {
      if phase == Gathering {
        return;
      }
      interacting := true;
      target := p;
    }

    /** The window was resized to `w` by `h`. */
    method Resize(w: real, h: real)
      modifies this`width, this`height, this`target
      ensures width == w && height == h
      ensures !interacting ==> target == Point(w / 2.0, h / 2.0)
      ensures interacting ==> target == old(target)
    {
      width, height := w, h;
      if !interacting {
        target := Point(w / 2.0, h / 2.0);
      }
    }

    /**
     * The per-particle decisions of one animation frame for configuration
     * `c`: particle `j` takes its colour from the draw `draws(j)`.
     */
    method Frame(c: Config, draws: nat -> Unit) returns (style: Style, plan: seq<Step>)
      ensures style == FrameStyle(c, phase)
      ensures |plan| == |particles|
      ensures forall j :: 0 <= j < |particles| ==>
        plan[j] == Step(UpdateBranch(c.mode, phase), ColourFor(c.mode, j, particles[j].team, draws(j)),
                        DrawPrimitive(c.mode, particles[j].glyph))
    {
      var trail := 0.15;
      if c.mode == GHOST { trail := 0.05; }
      if c.mode == TNT { trail := 0.3; }
      if phase == Exploding { trail := 0.05; }
      style := Style(trail, c.glowIntensity, GlowTint(c.mode));
      plan := [];
      var i := 0;
      while i < |particles|
        invariant 0 <= i <= |particles| && |plan| == i
        invariant forall j :: 0 <= j < i ==>
          plan[j] == Step(UpdateBranch(c.mode, phase), ColourFor(c.mode, j, particles[j].team, draws(j)),
                          DrawPrimitive(c.mode, particles[j].glyph))
      {
        var p := particles[i];
        plan := plan + [Step(UpdateBranch(c.mode, phase), ColourFor(c.mode, i, p.team, draws(i)),
                             DrawPrimitive(c.mode, p.glyph))];
        i := i + 1;
      }
    }
  }

  /** Once the pool is lettered for a glyph mode, every particle draws its glyph. */
  lemma LetteredPoolDrawsGlyphs(s: Simulation, m: ParticleMode, j: nat)
    requires s.Lettered(m) && IsGlyphMode(m) && j < |s.particles|
    ensures DrawPrimitive(m, s.particles[j].glyph).Letter?
  {
  }

  /** Once the pool is lettered for any other mode, every glyph is empty. */
  lemma LetteredPoolIsBlank(s: Simulation, m: ParticleMode, j: nat)
    requires s.Lettered(m) && !IsGlyphMode(m) && j < |s.particles|
    ensures s.particles[j].glyph == ""
  {
  }
}
