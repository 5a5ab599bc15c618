/**
 * A single particle: its random construction, its glyph assignment and the
 * explosion impulse. Positions and velocities are carried as opaque `real`s;
 * the per-frame motion formulas are not part of this model.
 */
module Particles {
  import opened Types

  /** The glyph alphabet of the rune-circle mode. */
  const Runes: seq<string> := [
    "\U{16A0}", "\U{16A2}", "\U{16A6}", "\U{16A8}", "\U{16B1}", "\U{16B2}", "\U{16B7}", "\U{16B9}",
    "\U{16BA}", "\U{16BE}", "\U{16C1}", "\U{16C3}", "\U{16C7}", "\U{16C8}", "\U{16C9}", "\U{16CA}",
    "\U{16CF}", "\U{16D2}", "\U{16D6}", "\U{16D7}", "\U{16DA}", "\U{16DC}", "\U{16DE}", "\U{16DF}",
    "\U{2728}", "\U{26A1}", "\U{2734}\U{FE0F}"]

  /** The glyph alphabet of the snowfall mode. */
  const Snowflakes: seq<string> := ["\U{2744}\U{FE0F}", "\U{2745}", "\U{2746}", "\U{2022}"]

  predicate IsGlyphMode(m: ParticleMode) {
    m == SORCERER || m == SNOW
  }

  /** The glyphs a particle may carry in mode `m`; the empty string means "no glyph". */
  function Alphabet(m: ParticleMode): seq<string> {
    if m == SORCERER then Runes else if m == SNOW then Snowflakes else [""]
  }

  /** Scaling a draw by a positive extent stays within the extent. */
  lemma ScaleWithin(u: Unit, w: real, p: real)
    requires w > 0.0 && p == u * w
    ensures 0.0 <= p < w
  {
    assert w - p == (1.0 - u) * w;
    assert (1.0 - u) * w > 0.0;
  }

  /** `Math.floor(u * n)`: a uniform index into a table of `n` entries. */
  function PickIndex(n: nat, u: Unit): (k: nat)
    requires n > 0
    ensures k < n
    ensures k as real <= u * n as real < k as real + 1.0
  {
    ScaleWithin(u, n as real, u * n as real);
    (u * n as real).Floor
  }

  /** Every entry of a table can be drawn. */
  lemma PickReachesEveryIndex(n: nat, k: nat)
    requires k < n
    ensures var u := k as real / n as real; 0.0 <= u < 1.0 && PickIndex(n, u) == k
  {
    var u := k as real / n as real;
    assert u * n as real == k as real;
  }

  /** `setChar`: a random glyph from the mode's alphabet, or the empty string. */
  function GlyphFor(m: ParticleMode, u: Unit): (g: string)
    ensures g in Alphabet(m)
    ensures g != "" <==> IsGlyphMode(m)
  {
    var a := Alphabet(m);
    var g := a[PickIndex(|a|, u)];
    assert IsGlyphMode(m) ==> g != "" by {
      assert forall i :: 0 <= i < |Runes| ==> |Runes[i]| > 0;
      assert forall i :: 0 <= i < |Snowflakes| ==> |Snowflakes[i]| > 0;
    }
    g
  }

  /** The binary group tag: team in the duel, strand in the helix. */
  type Team = t: int | 0 <= t <= 1

  /** The random draws the constructor makes, in order, and the one its first `setChar` makes. */
  datatype Seeds = Seeds(
    x: Unit, y: Unit, vx: Unit, vy: Unit, radius: Unit, alpha: Unit,
    ease: Unit, angle: Unit, team: Unit, rotation: Unit, glyph: Unit)

  /** The fields a particle's update may change after construction, glyph apart. */
  datatype Motion = Motion(x: real, y: real, vx: real, vy: real, rotation: real)

  /** The fields fixed at construction. The angle offset is in turns (radians / 2π). */
  datatype Traits = Traits(
    radius: real, baseAlpha: real, friction: real, ease: real,
    angleTurns: real, team: Team, initialX: real)

  datatype Velocity = Velocity(vx: real, vy: real)

  function SpawnMotion(width: real, height: real, s: Seeds): Motion {
    Motion(s.x * width, s.y * height, (s.vx - 0.5) * 2.0, (s.vy - 0.5) * 2.0, s.rotation * 360.0)
  }

  function SpawnTeam(s: Seeds): Team {
    if s.team > 0.5 then 0 else 1
  }

  function SpawnTraits(width: real, size: real, s: Seeds): Traits {
    Traits(s.radius * size + 0.5, s.alpha * 0.5 + 0.5, 0.94, 0.05 + s.ease * 0.05,
           s.angle, SpawnTeam(s), s.x * width)
  }

  /** Where construction puts a particle, for any draws and any positive extent. */
  lemma SpawnMotionBounds(width: real, height: real, s: Seeds)
    requires width > 0.0 && height > 0.0
    ensures 0.0 <= SpawnMotion(width, height, s).x < width
    ensures 0.0 <= SpawnMotion(width, height, s).y < height
    ensures -1.0 <= SpawnMotion(width, height, s).vx < 1.0 && -1.0 <= SpawnMotion(width, height, s).vy < 1.0
    ensures 0.0 <= SpawnMotion(width, height, s).rotation < 360.0
  {
    var m := SpawnMotion(width, height, s);
    ScaleWithin(s.x, width, m.x);
    ScaleWithin(s.y, height, m.y);
    ScaleWithin(s.rotation, 360.0, m.rotation);
  }

  /** The fixed traits construction gives, for any draws and any positive size. */
  lemma SpawnTraitsBounds(width: real, size: real, s: Seeds)
    requires size > 0.0
    ensures 0.5 <= SpawnTraits(width, size, s).radius < size + 0.5
    ensures 0.5 <= SpawnTraits(width, size, s).baseAlpha < 1.0
    ensures SpawnTraits(width, size, s).friction == 0.94
    ensures 0.05 <= SpawnTraits(width, size, s).ease < 0.1
    ensures SpawnTraits(width, size, s).team == 0 <==> s.team > 0.5
  {
    var t := SpawnTraits(width, size, s);
    ScaleWithin(s.radius, size, t.radius - 0.5);
  }

  class Particle {
    var x: real
    var y: real
    var vx: real
    var vy: real
    const radius: real
    /** The opacity of the white base colour. */
    const baseAlpha: real
    const friction: real
    const ease: real
    const angleTurns: real
    var glyph: string
    var rotation: real
    const team: Team
    const initialX: real

    function Kinematics(): Motion
      reads this
    {
      Motion(x, y, vx, vy, rotation)
    }

    function Fixed(): Traits {
      Traits(radius, baseAlpha, friction, ease, angleTurns, team, initialX)
    }

    /** A fresh particle somewhere on a `width` by `height` screen, without a glyph. */
    constructor (width: real, height: real, size: real, s: Seeds)
      ensures Kinematics() == SpawnMotion(width, height, s)
      ensures Fixed() == SpawnTraits(width, size, s)
      ensures glyph == ""
    {
      x := s.x * width;
      y := s.y * height;
      initialX := s.x * width;
      vx := (s.vx - 0.5) * 2.0;
      vy := (s.vy - 0.5) * 2.0;
      radius := s.radius * size + 0.5;
      baseAlpha := s.alpha * 0.5 + 0.5;
      friction := 0.94;
      ease := 0.05 + s.ease * 0.05;
      angleTurns := s.angle;
      team := SpawnTeam(s);
      glyph := "";
      rotation := s.rotation * 360.0;
    }

    /** `setChar`: re-letters this particle for mode `m` and touches nothing else. */
    method SetGlyph(m: ParticleMode, u: Unit)
      modifies this`glyph
      ensures glyph == GlyphFor(m, u)
    {
      glyph := GlyphFor(m, u);
    }

    /** `explode`: the velocity is overwritten by the impulse; nothing else changes. */
    method Explode(impulse: Velocity)
      modifies this`vx, this`vy
      ensures vx == impulse.vx && vy == impulse.vy
    {
      vx := impulse.vx;
      vy := impulse.vy;
    }
  }

  /** A particle as the pool creates it: constructed from `s`, then lettered with `s.glyph`. */
  ghost predicate Born(p: Particle, width: real, height: real, size: real, m: ParticleMode, s: Seeds)
    reads p
  {
    p.Kinematics() == SpawnMotion(width, height, s) && p.Fixed() == SpawnTraits(width, size, s)
    && p.glyph == GlyphFor(m, s.glyph)
  }

  ghost predicate Distinct(ps: seq<Particle>) {
    forall i, j :: 0 <= i < j < |ps| ==> ps[i] != ps[j]
  }

  /** Creates `n` particles in order, the `k`-th from `seeds(k)`. */
  method SpawnAll(n: nat, width: real, height: real, size: real, m: ParticleMode, seeds: nat -> Seeds)
    returns (ps: seq<Particle>)
    ensures |ps| == n && Distinct(ps)
    ensures forall k :: 0 <= k < n ==> fresh(ps[k]) && Born(ps[k], width, height, size, m, seeds(k))
  {
    ps := [];
    while |ps| < n
      invariant |ps| <= n && Distinct(ps)
      invariant forall k :: 0 <= k < |ps| ==> fresh(ps[k]) && Born(ps[k], width, height, size, m, seeds(k))
    {
      var p := new Particle(width, height, size, seeds(|ps|));
      p.SetGlyph(m, seeds(|ps|).glyph);
      ps := ps + [p];
    }
  }
}
