/**
 * The discrete decisions a frame makes for each particle: which branch of
 * the update runs, which index region a shape mode puts the particle in,
 * which colour band it takes, and how the renderer draws it. Each is a pure
 * case split on the mode, the animation phase, the particle's index among
 * `total`, its team tag and a random draw.
 *
 * The source compares the float `index / total` against decimal constants;
 * here `index / total < num / den` is the exact integer test
 * `den * index < num * total`.
 */
module Dispatch {
  import opened Types
  import opened Supernova
  import opened Particles

  // ---------------------------------------------------------------------
  // Update branch

  /**
   * The branch `update` takes. `Gather` and `Drift` are the supernova
   * overrides; the next six are the modes with their own integration, which
   * return before the shared step; `Steer` computes a destination for the
   * mode and eases towards it with the particle's ease and friction.
   */
  datatype Branch =
    | Gather | Drift
    | Fountain | Snowfall | Wander | MatrixFall | RainFall | Singularity
    | Steer

  /** The modes whose update moves the particle by their own physics rather than by easing. */
  predicate OwnPhysics(m: ParticleMode) {
    m == TNT || m == SNOW || m == GHOST || m == MATRIX || m == RAIN || m == BLACKHOLE
  }

  function UpdateBranch(m: ParticleMode, phase: Phase): (b: Branch)
    ensures phase == Gathering <==> b == Gather
    ensures phase == Exploding <==> b == Drift
    ensures b == Steer <==> phase == Normal && !OwnPhysics(m)
  {
    match phase
    case Gathering => Gather
    case Exploding => Drift
    case Normal =>
      if m == TNT then Fountain
      else if m == SNOW then Snowfall
      else if m == GHOST then Wander
      else if m == MATRIX then MatrixFall
      else if m == RAIN then RainFall
      else if m == BLACKHOLE then Singularity
      else Steer
  }

  /** The supernova overrides pre-empt every mode: while they run, the mode is irrelevant. */
  lemma OverridesIgnoreMode(m1: ParticleMode, m2: ParticleMode, phase: Phase)
    requires phase != Normal
    ensures UpdateBranch(m1, phase) == UpdateBranch(m2, phase)
  {
  }

  /** In the normal phase each own-physics mode has a branch of its own. */
  lemma OwnPhysicsBranchesDiffer(m1: ParticleMode, m2: ParticleMode)
    requires OwnPhysics(m1) && OwnPhysics(m2) && m1 != m2
    ensures UpdateBranch(m1, Normal) != UpdateBranch(m2, Normal)
  {
  }

  // ---------------------------------------------------------------------
  // Index regions

  /** `index / total < num / den`, exactly. */
  predicate Below(index: nat, total: nat, num: nat, den: nat) {
    den * index < num * total
  }

  /** `a / d` rounded up, for a positive divisor. */
  function CeilDiv(a: nat, d: nat): nat
    requires d > 0
  {
    (a + d - 1) / d
  }

  /** The number of indexes that pass `Below`: `ceil(num * total / den)`. */
  function Threshold(total: nat, num: nat, den: nat): nat
    requires den > 0
  {
    CeilDiv(num * total, den)
  }

  lemma MulMonotone(d: nat, i: nat, j: nat)
    requires i <= j
    ensures d * i <= d * j
  {
  }

  /** `d * i < a` holds exactly for the indexes below `ceil(a / d)`. */
  lemma CeilDivSplits(a: nat, d: nat, i: nat)
    requires d > 0
    ensures d * i < a <==> i < CeilDiv(a, d)
  {
    var c := CeilDiv(a, d);
    assert d * c <= a + d - 1 < d * c + d;
    if i < c {
      MulMonotone(d, i, c - 1);
      assert d * (c - 1) == d * c - d;
    } else {
      MulMonotone(d, c, i);
    }
  }

  /** A region test is an index cut: the indexes below the threshold, and no others. */
  lemma BelowIsPrefix(index: nat, total: nat, num: nat, den: nat)
    requires den > 0
    ensures Below(index, total, num, den) <==> index < Threshold(total, num, den)
  {
    CeilDivSplits(num * total, den, index);
  }

  /** Thresholds grow with the fraction and never pass `total` for fractions up to one. */
  lemma ThresholdOrdered(total: nat, n1: nat, n2: nat, den: nat)
    requires den > 0 && n1 <= n2 <= den
    ensures Threshold(total, n1, den) <= Threshold(total, n2, den) <= total
  {
    MulMonotone(total, n1, n2);
    MulMonotone(total, n2, den);
    assert n1 * total <= n2 * total <= den * total;
    assert Threshold(total, n2, den) <= total by {
      CeilDivSplits(n2 * total, den, total);
    }
    var t1 := Threshold(total, n1, den);
    if t1 > 0 {
      CeilDivSplits(n1 * total, den, t1 - 1);
      CeilDivSplits(n2 * total, den, t1 - 1);
    }
  }

  /** `Below` on a common denominator is monotone in the fraction. */
  lemma BelowMonotone(index: nat, total: nat, n1: nat, n2: nat, den: nat)
    requires n1 <= n2 && Below(index, total, n1, den)
    ensures Below(index, total, n2, den)
  {
    MulMonotone(total, n1, n2);
    assert n1 * total <= n2 * total;
  }

  /** The three parts of the sword: blade below 0.7, guard below 0.85, hilt after. */
  datatype SwordPart = Blade | Guard | Hilt

  function SwordRegion(index: nat, total: nat): SwordPart {
    if Below(index, total, 70, 100) then Blade
    else if Below(index, total, 85, 100) then Guard
    else Hilt
  }

  /**
   * The sword's parts are three consecutive index blocks that cover the pool:
   * `[0, a)`, `[a, b)` and `[b, total)` with `a <= b <= total`.
   */
  lemma SwordBlocks(index: nat, total: nat)
    requires index < total
    ensures var a, b := Threshold(total, 70, 100), Threshold(total, 85, 100);
      && a <= b <= total
      && (SwordRegion(index, total) == Blade <==> index < a)
      && (SwordRegion(index, total) == Guard <==> a <= index < b)
      && (SwordRegion(index, total) == Hilt <==> b <= index)
  {
    ThresholdOrdered(total, 70, 85, 100);
    BelowIsPrefix(index, total, 70, 100);
    BelowIsPrefix(index, total, 85, 100);
  }

  datatype SpearPart = Tip | Shaft

  function SpearRegion(index: nat, total: nat): SpearPart {
    if Below(index, total, 15, 100) then Tip else Shaft
  }

  lemma SpearBlocks(index: nat, total: nat)
    requires index < total
    ensures var a := Threshold(total, 15, 100);
      && a <= total
      && (SpearRegion(index, total) == Tip <==> index < a)
  {
    ThresholdOrdered(total, 15, 15, 100);
    BelowIsPrefix(index, total, 15, 100);
  }

  /** The face: skull below 0.70, the eyes up to 0.85 split at 0.775, the mouth after. */
  datatype FacePart = Skull | LeftEye | RightEye | Mouth

  function FaceRegion(index: nat, total: nat): FacePart {
    if Below(index, total, 700, 1000) then Skull
    else if Below(index, total, 850, 1000) then
      if Below(index, total, 775, 1000) then LeftEye else RightEye
    else Mouth
  }

  lemma FaceBlocks(index: nat, total: nat)
    requires index < total
    ensures var a, b, c := Threshold(total, 700, 1000), Threshold(total, 775, 1000), Threshold(total, 850, 1000);
      && a <= b <= c <= total
      && (FaceRegion(index, total) == Skull <==> index < a)
      && (FaceRegion(index, total) == LeftEye <==> a <= index < b)
      && (FaceRegion(index, total) == RightEye <==> b <= index < c)
      && (FaceRegion(index, total) == Mouth <==> c <= index)
  {
    ThresholdOrdered(total, 700, 775, 1000);
    ThresholdOrdered(total, 775, 850, 1000);
    BelowIsPrefix(index, total, 700, 1000);
    BelowIsPrefix(index, total, 775, 1000);
    BelowIsPrefix(index, total, 850, 1000);
  }

  /** The phoenix: body below 0.2, the wings up to 0.7 split at 0.45, the tail after. */
  datatype PhoenixPart = Body | LeftWing | RightWing | Tail

  function PhoenixRegion(index: nat, total: nat): PhoenixPart {
    if Below(index, total, 20, 100) then Body
    else if Below(index, total, 70, 100) then
      if Below(index, total, 45, 100) then LeftWing else RightWing
    else Tail
  }

  lemma PhoenixBlocks(index: nat, total: nat)
    requires index < total
    ensures var a, b, c := Threshold(total, 20, 100), Threshold(total, 45, 100), Threshold(total, 70, 100);
      && a <= b <= c <= total
      && (PhoenixRegion(index, total) == Body <==> index < a)
      && (PhoenixRegion(index, total) == LeftWing <==> a <= index < b)
      && (PhoenixRegion(index, total) == RightWing <==> b <= index < c)
      && (PhoenixRegion(index, total) == Tail <==> c <= index)
  {
    ThresholdOrdered(total, 20, 45, 100);
    ThresholdOrdered(total, 45, 70, 100);
    BelowIsPrefix(index, total, 20, 100);
    BelowIsPrefix(index, total, 45, 100);
    BelowIsPrefix(index, total, 70, 100);
  }

  /** Saturn: an index belongs to the ring when `index > 0.6 * total` (strictly), else to the planet. */
  datatype SaturnPart = Planet | Ring

  function SaturnRegion(index: nat, total: nat): SaturnPart {
    if 10 * index > 6 * total then Ring else Planet
  }

  /** The planet is the block `[0, floor(0.6 * total) + 1)`; the index at exactly 0.6 stays on the planet. */
  lemma SaturnBlocks(index: nat, total: nat)
    requires index < total
    ensures SaturnRegion(index, total) == Planet <==> index <= (6 * total) / 10
  {
    var q := (6 * total) / 10;
    assert 10 * q <= 6 * total < 10 * q + 10;
    if index <= q {
      MulMonotone(10, index, q);
    } else {
      MulMonotone(10, q + 1, index);
    }
  }

  /** The angel's wings: the first half of the pool is the right wing. */
  datatype WingSide = RightSide | LeftSide

  function AngelSide(index: nat, total: nat): WingSide {
    if 2 * index < total then RightSide else LeftSide
  }

  /** A proper fraction `n / d` lies in [0, 1). */
  lemma ProperFraction(n: nat, d: nat, p: real)
    requires n < d && p == n as real / d as real
    ensures 0.0 <= p < 1.0 && p * d as real == n as real
  {
    var dr := d as real;
    assert p * dr == n as real;
    assert (1.0 - p) * dr == dr - n as real;
  }

  /** How far along its wing a particle sits: `2i` or `2i - 1` for `i = index / total`. */
  function AngelProgress(index: nat, total: nat): (p: real)
    requires index < total
    ensures 0.0 <= p < 1.0
    ensures AngelSide(index, total) == RightSide ==> p * total as real == (2 * index) as real
    ensures AngelSide(index, total) == LeftSide ==> p * total as real == (2 * index - total) as real
  {
    var n: nat := if 2 * index < total then 2 * index else 2 * index - total;
    var p := n as real / total as real;
    ProperFraction(n, total, p);
    p
  }

  /** SORCERER: five concentric rings, chosen by `index % 5`. */
  function RuneRing(index: nat): (ring: nat)
    ensures ring < 5
    ensures (index - ring) % 5 == 0
  {
    index % 5
  }

  function RingRadius(ring: nat): (r: int)
    requires ring < 5
    ensures r == 60 || r == 110 || r == 160 || r == 210 || r == 260
  {
    60 + 50 * ring
  }

  /** The spin direction of a ring: `+1` iff the ring is even. */
  function RingDirection(ring: nat): (d: int)
    ensures d == 1 || d == -1
    ensures d == 1 <==> ring % 2 == 0
  {
    if ring % 2 == 0 then 1 else -1
  }

  /** The signed angular speed of a ring, per millisecond, before the mode's speed multiplier. */
  function RingSpeed(ring: nat, speed: real): real {
    (0.001 + ring as real * 0.0005) * RingDirection(ring) as real * speed
  }

  /** Outer rings are wider, neighbouring rings spin in opposite directions, and outer rings spin faster. */
  lemma RingsNest(ring: nat, speed: real)
    requires ring < 4 && speed > 0.0
    ensures RingRadius(ring) < RingRadius(ring + 1)
    ensures RingDirection(ring) == -RingDirection(ring + 1)
    ensures RingDirection(ring) as real * RingSpeed(ring, speed) < RingDirection(ring + 1) as real * RingSpeed(ring + 1, speed)
  {
    var a, b := 0.001 + ring as real * 0.0005, 0.001 + (ring + 1) as real * 0.0005;
    var d, e := RingDirection(ring) as real, RingDirection(ring + 1) as real;
    assert d * d == 1.0 && e * e == 1.0;
    assert d * RingSpeed(ring, speed) == a * speed by {
      assert d * ((a * d) * speed) == (d * d) * (a * speed);
    }
    assert e * RingSpeed(ring + 1, speed) == b * speed by {
      assert e * ((b * e) * speed) == (e * e) * (b * speed);
    }
    assert b * speed - a * speed == 0.0005 * speed;
  }

  /** Indexes five apart share a ring. */
  lemma RuneRingPeriodic(index: nat)
    ensures RuneRing(index + 5) == RuneRing(index)
  {
  }

  /** GALAXY: two spiral arms by index parity; the second is offset by half a turn. */
  function GalaxyArmTurns(index: nat): (t: real)
    ensures t == 0.0 <==> index % 2 == 0
    ensures t == 0.0 || t == 0.5
  {
    if index % 2 == 0 then 0.0 else 0.5
  }

  /** DUEL: what a particle's random body-part draw selects. */
  datatype BodyPart = Head | Torso | Limbs

  function DuelBodyPart(u: Unit): (b: BodyPart)
    ensures b == Head <==> u < 0.2
    ensures b == Torso <==> 0.2 <= u < 0.6
    ensures b == Limbs <==> 0.6 <= u
  {
    if u < 0.2 then Head else if u < 0.6 then Torso else Limbs
  }

  /** The x-centre of a duellist: team 0 stands 150 left of the target, team 1 150 right, swayed by `osc`. */
  function DuelCentreX(team: Team, targetX: real, osc: real): real {
    if team == 0 then targetX - 150.0 + osc else targetX + 150.0 - osc
  }

  /** The two duellists are mirror images about the target, whatever the sway. */
  lemma DuelMirror(targetX: real, osc: real)
    ensures DuelCentreX(0, targetX, osc) - targetX == targetX - DuelCentreX(1, targetX, osc)
  {
  }

  /** DNA: the strand is the team tag; the second strand is half a turn out of phase. */
  function DnaPhaseTurns(team: Team): (t: real)
    ensures t == 0.0 <==> team == 0
    ensures team == 1 ==> t == 0.5
  {
    team as real * 0.5
  }

  // ---------------------------------------------------------------------
  // Colour bands

  /** The colour `updateColor` picks, as a tag; the alpha it multiplies in is not modelled. */
  datatype Colour =
    | TntSpark | TntYellow | TntOrange | TntSmoke
    | RuneCyan | RunePurple | RuneGold
    | AngelGold | AngelWhite
    | SnowWhite | Ectoplasm
    | DuelBlue | DuelRed
    | DnaGreen | DnaViolet
    | Nebula(red: real)
    | PhoenixWhite | PhoenixYellow | PhoenixOrange | PhoenixRed
    | MatrixHead | MatrixTrail
    | EventHorizon | Accretion(depth: real)
    | RainBlue | FaceBlue
    | Base

  /** The modes with a colour rule of their own; every other mode keeps its base colour. */
  predicate Tinted(m: ParticleMode) {
    m in {TNT, SORCERER, ANGEL, SNOW, GHOST, DUEL, DNA, GALAXY, PHOENIX, MATRIX, BLACKHOLE, RAIN, FACE}
  }

  /**
   * `updateColor(mode, index, total)` for a particle of team `team`, where
   * `u` is the mode's own draw (the one after the alpha draw).
   */
  function ColourFor(m: ParticleMode, index: nat, team: Team, u: Unit): (c: Colour)
    ensures c == Base <==> !Tinted(m)
  {
    match m
    case TNT =>
      if u > 0.9 then TntSpark else if u > 0.6 then TntYellow else if u > 0.3 then TntOrange else TntSmoke
    case SORCERER =>
      if index % 3 == 0 then RuneCyan else if index % 3 == 1 then RunePurple else RuneGold
    case ANGEL => if index % 10 == 0 then AngelGold else AngelWhite
    case SNOW => SnowWhite
    case GHOST => Ectoplasm
    case DUEL => if team == 0 then DuelBlue else DuelRed
    case DNA => if team == 0 then DnaGreen else DnaViolet
    case GALAXY => Nebula(100.0 + u * 100.0)
    case PHOENIX =>
      if u < 0.1 then PhoenixWhite else if u < 0.4 then PhoenixYellow else if u < 0.7 then PhoenixOrange else PhoenixRed
    case MATRIX => if u > 0.95 then MatrixHead else MatrixTrail
    case BLACKHOLE => if u > 0.8 then EventHorizon else Accretion(u)
    case RAIN => RainBlue
    case FACE => FaceBlue
    case _ => Base
  }

  /** TNT's four bands split the draw at 0.3, 0.6 and 0.9, the upper ends inclusive. */
  lemma TntBands(index: nat, team: Team, u: Unit)
    ensures ColourFor(TNT, index, team, u) == TntSpark <==> u > 0.9
    ensures ColourFor(TNT, index, team, u) == TntYellow <==> 0.6 < u <= 0.9
    ensures ColourFor(TNT, index, team, u) == TntOrange <==> 0.3 < u <= 0.6
    ensures ColourFor(TNT, index, team, u) == TntSmoke <==> u <= 0.3
  {
  }

  /** PHOENIX's four bands split the draw at 0.1, 0.4 and 0.7, the lower ends inclusive. */
  lemma PhoenixBands(index: nat, team: Team, u: Unit)
    ensures ColourFor(PHOENIX, index, team, u) == PhoenixWhite <==> u < 0.1
    ensures ColourFor(PHOENIX, index, team, u) == PhoenixYellow <==> 0.1 <= u < 0.4
    ensures ColourFor(PHOENIX, index, team, u) == PhoenixOrange <==> 0.4 <= u < 0.7
    ensures ColourFor(PHOENIX, index, team, u) == PhoenixRed <==> 0.7 <= u
  {
  }

  /** SORCERER's colour is fixed by `index % 3`, whatever the draw. */
  lemma RuneBands(index: nat, team: Team, u: Unit, t: Team, v: Unit)
    ensures ColourFor(SORCERER, index, team, u) == ColourFor(SORCERER, index + 3, t, v)
    ensures ColourFor(SORCERER, index, team, u) == RuneCyan <==> index % 3 == 0
    ensures ColourFor(SORCERER, index, team, u) == RunePurple <==> index % 3 == 1
    ensures ColourFor(SORCERER, index, team, u) == RuneGold <==> index % 3 == 2
  {
  }

  /** ANGEL is gold exactly at the multiples of ten and white elsewhere. */
  lemma AngelBands(index: nat, team: Team, u: Unit)
    ensures ColourFor(ANGEL, index, team, u) == AngelGold <==> index % 10 == 0
    ensures ColourFor(ANGEL, index, team, u) == AngelWhite <==> index % 10 != 0
  {
  }

  /** How many of the first `n` particles an angel colours gold. */
  function GoldCount(n: nat): nat {
    if n == 0 then 0 else GoldCount(n - 1) + (if ColourFor(ANGEL, n - 1, 0, 0.0) == AngelGold then 1 else 0)
  }

  /** One particle in ten is gold: `ceil(n / 10)` of the first `n`. */
  lemma {:induction false} GoldCountIsTenth(n: nat)
    ensures GoldCount(n) == (n + 9) / 10
  {
    if n > 0 {
      GoldCountIsTenth(n - 1);
      AngelBands(n - 1, 0, 0.0);
    }
  }

  /** DUEL and DNA colour by team alone: the index and the draw play no part. */
  lemma TeamBands(i: nat, j: nat, team: Team, u: Unit, v: Unit)
    ensures ColourFor(DUEL, i, team, u) == ColourFor(DUEL, j, team, v)
    ensures ColourFor(DNA, i, team, u) == ColourFor(DNA, j, team, v)
    ensures ColourFor(DUEL, i, team, u) == DuelBlue <==> team == 0
    ensures ColourFor(DNA, i, team, u) == DnaGreen <==> team == 0
  {
  }

  /** The nebula's red channel lies in [100, 200); the accretion disc's depth is the draw itself, at most 0.8. */
  lemma DrawnBands(index: nat, team: Team, u: Unit)
    ensures ColourFor(GALAXY, index, team, u).Nebula?
    ensures 100.0 <= ColourFor(GALAXY, index, team, u).red < 200.0
    ensures ColourFor(BLACKHOLE, index, team, u) == EventHorizon <==> u > 0.8
    ensures ColourFor(BLACKHOLE, index, team, u).Accretion? ==> ColourFor(BLACKHOLE, index, team, u).depth == u <= 0.8
    ensures ColourFor(MATRIX, index, team, u) == MatrixHead <==> u > 0.95
  {
  }

  // ---------------------------------------------------------------------
  // Rendering

  /** What `draw` puts on the canvas. */
  datatype Primitive = Square | Letter(glyph: string) | Feather | Disc

  function DrawPrimitive(m: ParticleMode, glyph: string): (p: Primitive)
    ensures p == Square <==> m == TNT
    ensures p.Letter? <==> IsGlyphMode(m) && glyph != ""
    ensures p.Letter? ==> p.glyph == glyph
    ensures p == Feather <==> m == ANGEL
  {
    if m == TNT then Square
    else if (m == SORCERER || m == SNOW) && glyph != "" then Letter(glyph)
    else if m == ANGEL then Feather
    else Disc
  }

  /** A particle lettered for its mode draws its glyph exactly in the glyph modes. */
  lemma LetteredParticlesDrawGlyphs(m: ParticleMode, u: Unit)
    ensures DrawPrimitive(m, GlyphFor(m, u)).Letter? <==> IsGlyphMode(m)
    ensures !IsGlyphMode(m) ==> DrawPrimitive(m, GlyphFor(m, u)) == DrawPrimitive(m, "")
  {
  }

  /** The opacity of the black veil painted over the previous frame. */
  function TrailAlpha(m: ParticleMode, phase: Phase): (a: real)
    ensures phase == Exploding ==> a == 0.05
    ensures phase != Exploding ==> (a == 0.3 <==> m == TNT)
    ensures phase != Exploding ==> (a == 0.05 <==> m == GHOST)
    ensures phase != Exploding && m != TNT && m != GHOST ==> a == 0.15
  {
    if phase == Exploding then 0.05
    else if m == TNT then 0.3
    else if m == GHOST then 0.05
    else 0.15
  }

  /** The glow colour behind every particle. */
  datatype Tint = WhiteGlow | FireGlow | MatrixGlow | VoidGlow | CyanGlow | EmberGlow | HaloGlow

  function GlowTint(m: ParticleMode): (t: Tint)
    ensures t == WhiteGlow <==> m !in {PHOENIX, MATRIX, BLACKHOLE, SORCERER, TNT, ANGEL}
  {
    match m
    case PHOENIX => FireGlow
    case MATRIX => MatrixGlow
    case BLACKHOLE => VoidGlow
    case SORCERER => CyanGlow
    case TNT => EmberGlow
    case ANGEL => HaloGlow
    case _ => WhiteGlow
  }

  /** The tint determines the mode among the six modes that have one. */
  lemma GlowTintInjective(m1: ParticleMode, m2: ParticleMode)
    requires GlowTint(m1) != WhiteGlow && GlowTint(m1) == GlowTint(m2)
    ensures m1 == m2
  {
  }

  /** The per-frame canvas settings: trail alpha, shadow blur (the glow setting) and tint. */
  datatype Style = Style(trail: real, blur: int, tint: Tint)

  function FrameStyle(c: Config, phase: Phase): Style {
    Style(TrailAlpha(c.mode, phase), c.glowIntensity, GlowTint(c.mode))
  }
}
