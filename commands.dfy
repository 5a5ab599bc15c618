/**
 * The command and preset layer of the application shell: the typed-command
 * synonym table, the keyboard-shortcut table, the per-mode presets and the
 * record merge that applies them to the configuration.
 */
module Commands {
  import opened Types
  import opened Text

  /** What a command or a shortcut asks for. */
  datatype Action = Activate(mode: ParticleMode) | Supernova

  /** The configuration the application starts with. */
  const InitialConfig := Config(1500, 1.2, 2.5, 15, SWARM)

  // ---------------------------------------------------------------------
  // Typed commands

  /** The synonym table, keyed by the normalized command. */
  function Synonym(word: string): Option<Action> {
    match word
    case "swarm" => Some(Activate(SWARM))
    case "vortex" => Some(Activate(VORTEX))
    case "circle" => Some(Activate(CIRCLE))
    case "star" => Some(Activate(STAR))
    case "heart" => Some(Activate(HEART))
    case "saturn" | "ring" => Some(Activate(SATURN))
    case "sword" => Some(Activate(SWORD))
    case "spear" => Some(Activate(SPEAR))
    case "shield" | "knight" => Some(Activate(SHIELD))
    case "hourglass" | "time" => Some(Activate(HOURGLASS))
    case "duel" | "fight" => Some(Activate(DUEL))
    case "galaxy" | "space" => Some(Activate(GALAXY))
    case "dna" | "life" => Some(Activate(DNA))
    case "face" | "ai" | "speak" => Some(Activate(FACE))
    case "phoenix" | "fire" | "bird" => Some(Activate(PHOENIX))
    case "blackhole" | "void" => Some(Activate(BLACKHOLE))
    case "matrix" | "hack" | "code" => Some(Activate(MATRIX))
    case "rain" | "storm" => Some(Activate(RAIN))
    case "angel" | "wing" | "fly" => Some(Activate(ANGEL))
    case "sorcerer" | "magic" | "rune" | "spell" => Some(Activate(SORCERER))
    case "tnt" | "bomb" | "boom" => Some(Activate(TNT))
    case "snow" | "winter" | "cold" => Some(Activate(SNOW))
    case "ghost" | "boo" | "spirit" => Some(Activate(GHOST))
    case "supernova" | "explode" => Some(Supernova)
    case _ => None
  }

  /** The words that select each mode: the synonym table read the other way round. */
  function WordsFor(m: ParticleMode): seq<string> {
    match m
    case SWARM => ["swarm"]
    case VORTEX => ["vortex"]
    case CIRCLE => ["circle"]
    case STAR => ["star"]
    case HEART => ["heart"]
    case SATURN => ["saturn", "ring"]
    case SWORD => ["sword"]
    case SPEAR => ["spear"]
    case SHIELD => ["shield", "knight"]
    case HOURGLASS => ["hourglass", "time"]
    case DUEL => ["duel", "fight"]
    case GALAXY => ["galaxy", "space"]
    case DNA => ["dna", "life"]
    case FACE => ["face", "ai", "speak"]
    case PHOENIX => ["phoenix", "fire", "bird"]
    case BLACKHOLE => ["blackhole", "void"]
    case MATRIX => ["matrix", "hack", "code"]
    case RAIN => ["rain", "storm"]
    case ANGEL => ["angel", "wing", "fly"]
    case SORCERER => ["sorcerer", "magic", "rune", "spell"]
    case TNT => ["tnt", "bomb", "boom"]
    case SNOW => ["snow", "winter", "cold"]
    case GHOST => ["ghost", "boo", "spirit"]
  }

  const SupernovaWords: seq<string> := ["supernova", "explode"]

  /** The parser: lower-case, trim, look up. */
  function CommandAction(command: string): Option<Action> {
    Synonym(Normalize(command))
  }

  /** Every listed word of one of the basic shapes selects that mode. */
  lemma BasicShapeWordsSelect(w: string, m: ParticleMode)
    requires m in {SWARM, VORTEX, CIRCLE, STAR, HEART, SATURN, SWORD, SPEAR, SHIELD, HOURGLASS}
    requires w in WordsFor(m)
    ensures Synonym(w) == Some(Activate(m))
  {
  }

  /** Every listed word of one of the creative modes selects that mode. */
  lemma CreativeWordsSelect(w: string, m: ParticleMode)
    requires m in {DUEL, GALAXY, DNA, FACE}
    requires w in WordsFor(m)
    ensures Synonym(w) == Some(Activate(m))
  {
  }

  /** Every listed word of one of the high-concept modes selects that mode. */
  lemma HighConceptWordsSelect(w: string, m: ParticleMode)
    requires m in {PHOENIX, BLACKHOLE, MATRIX, RAIN}
    requires w in WordsFor(m)
    ensures Synonym(w) == Some(Activate(m))
  {
  }

  /** Every listed word of the angel or the sorcerer selects that mode. */
  lemma WingAndRuneWordsSelect(w: string, m: ParticleMode)
    requires m in {ANGEL, SORCERER}
    requires w in WordsFor(m)
    ensures Synonym(w) == Some(Activate(m))
  {
  }

  /** Every listed word of the bomb, the snow or the ghost selects that mode. */
  lemma ElementalWordsSelect(w: string, m: ParticleMode)
    requires m in {TNT, SNOW, GHOST}
    requires w in WordsFor(m)
    ensures Synonym(w) == Some(Activate(m))
  {
  }

  /** Every listed word of `m` selects `m`. */
  lemma ListedWordsSelect(w: string, m: ParticleMode)
    requires w in WordsFor(m)
    ensures Synonym(w) == Some(Activate(m))
  {
    match m {
      case SWARM | VORTEX | CIRCLE | STAR | HEART | SATURN | SWORD | SPEAR | SHIELD | HOURGLASS =>
        BasicShapeWordsSelect(w, m);
      case DUEL | GALAXY | DNA | FACE =>
        CreativeWordsSelect(w, m);
      case PHOENIX | BLACKHOLE | MATRIX | RAIN =>
        HighConceptWordsSelect(w, m);
      case ANGEL | SORCERER =>
        WingAndRuneWordsSelect(w, m);
      case TNT | SNOW | GHOST =>
        ElementalWordsSelect(w, m);
    }
  }

  /** A word that selects `m` is one of `m`'s listed words. */
  lemma OnlyListedWordsSelect(w: string, m: ParticleMode)
    requires Synonym(w) == Some(Activate(m))
    ensures w in WordsFor(m)
  {
  }

  /** A word selects mode `m` exactly when it is one of `m`'s listed words. */
  lemma SynonymSelects(w: string, m: ParticleMode)
    ensures Synonym(w) == Some(Activate(m)) <==> w in WordsFor(m)
  {
    if w in WordsFor(m) {
      ListedWordsSelect(w, m);
    }
    if Synonym(w) == Some(Activate(m)) {
      OnlyListedWordsSelect(w, m);
    }
  }

  /** Only the two listed words trigger the supernova. */
  lemma SynonymSupernova(w: string)
    ensures Synonym(w) == Some(Supernova) <==> w in SupernovaWords
  {
  }

  /** Every listed word is made of lower-case letters only. */
  lemma ListedWordsAreLower(m: ParticleMode)
    ensures forall w :: w in WordsFor(m) ==> LowerWord(w)
  {
  }

  /** Every mode can be selected by a typed command: its own name, and each of its other words. */
  lemma EveryModeHasACommand(m: ParticleMode)
    ensures |WordsFor(m)| > 0
    ensures forall w :: w in WordsFor(m) ==> CommandAction(w) == Some(Activate(m))
  {
    ListedWordsAreLower(m);
    forall w | w in WordsFor(m)
      ensures CommandAction(w) == Some(Activate(m))
    {
      NormalizeLowerWord(w);
      ListedWordsSelect(w, m);
    }
  }

  /** Letter case in the typed command never matters. */
  lemma CommandIgnoresCase(s: string)
    ensures CommandAction(Lower(s)) == CommandAction(s)
  {
    LowerIdempotent(s);
  }

  /** White space around the typed command never matters. */
  lemma CommandIgnoresPadding(p: string, s: string, q: string)
    requires AllSpace(p) && AllSpace(q)
    ensures CommandAction(p + s + q) == CommandAction(s)
  {
    LowerAppend(p + s, q);
    LowerAppend(p, s);
    LowerOfSpace(p);
    LowerOfSpace(q);
    TrimPadded(Lower(p), Lower(s), Lower(q));
  }

  lemma LowerHeart(s: string)
    requires s == "Heart" || s == "HEART" || s == "heart"
    ensures Lower(s) == "heart"
  {
    assert Lower(s)[0] == 'h' && Lower(s)[1] == 'e' && Lower(s)[2] == 'a';
    assert Lower(s)[3] == 'r' && Lower(s)[4] == 't';
  }

  lemma NormalizeHeart(s: string)
    requires s == "Heart" || s == "HEART" || s == "heart"
    ensures Normalize(s) == "heart"
  {
    LowerHeart(s);
    TrimOfUnpadded("heart");
  }

  /** Any spelling of "heart" in those cases, between any white space, selects the heart. */
  lemma HeartCommand(p: string, s: string, q: string)
    requires AllSpace(p) && AllSpace(q)
    requires s == "Heart" || s == "HEART" || s == "heart"
    ensures CommandAction(p + s + q) == Some(Activate(HEART))
  {
    CommandIgnoresPadding(p, s, q);
    NormalizeHeart(s);
  }

  lemma PaddedHeart()
    ensures CommandAction(" Heart ") == Some(Activate(HEART))
  {
    assert " Heart " == " " + "Heart" + " ";
    HeartCommand(" ", "Heart", " ");
  }

  lemma CapitalisedHeart()
    ensures CommandAction("HEART") == Some(Activate(HEART))
  {
    assert "" + "HEART" + "" == "HEART";
    HeartCommand("", "HEART", "");
  }

  // ---------------------------------------------------------------------
  // Keyboard shortcuts (consulted only when the command field is not focused)

  /** The shortcut table, keyed by the lower-cased key name. */
  function Shortcut(key: string): Option<Action> {
    match key
    case "1" => Some(Activate(SWARM))
    case "2" => Some(Activate(VORTEX))
    case "3" => Some(Activate(CIRCLE))
    case "4" => Some(Activate(STAR))
    case "5" => Some(Activate(HEART))
    case "s" => Some(Activate(SWORD))
    case "p" => Some(Activate(SPEAR))
    case "k" => Some(Activate(SHIELD))
    case "r" => Some(Activate(SATURN))
    case "h" => Some(Activate(HOURGLASS))
    case "f" => Some(Activate(DUEL))
    case "g" => Some(Activate(GALAXY))
    case "l" => Some(Activate(DNA))
    case "a" => Some(Activate(FACE))
    case "d" => Some(Supernova)
    case _ => None
  }

  /** The key bound to each mode, if any: the shortcut table read the other way round. */
  function KeyFor(m: ParticleMode): Option<string> {
    match m
    case SWARM => Some("1")
    case VORTEX => Some("2")
    case CIRCLE => Some("3")
    case STAR => Some("4")
    case HEART => Some("5")
    case SWORD => Some("s")
    case SPEAR => Some("p")
    case SHIELD => Some("k")
    case SATURN => Some("r")
    case HOURGLASS => Some("h")
    case DUEL => Some("f")
    case GALAXY => Some("g")
    case DNA => Some("l")
    case FACE => Some("a")
    case _ => None
  }

  function KeyAction(key: string): Option<Action> {
    Shortcut(Lower(key))
  }

  /** An already lower-cased key selects `m` exactly when it is `m`'s bound key. */
  lemma ShortcutSelects(key: string, m: ParticleMode)
    ensures Shortcut(key) == Some(Activate(m)) <==> KeyFor(m) == Some(key)
  {
  }

  lemma ShortcutSupernova(key: string)
    ensures Shortcut(key) == Some(Supernova) <==> key == "d"
  {
  }

  /** Every bound key is a single character, so named keys such as "Shift" do nothing. */
  lemma ShortcutKeysAreSingleCharacters(key: string)
    ensures Shortcut(key).Some? ==> |key| == 1
  {
  }

  lemma UpperCaseShortcut()
    ensures KeyAction("S") == Some(Activate(SWORD)) && KeyAction("D") == Some(Supernova)
  {
    assert Lower("S") == "s";
    assert Lower("D") == "d";
  }

  // ---------------------------------------------------------------------
  // Presets and the configuration merge

  /** A partial configuration: the keys a preset sets. `mode` is always set. */
  datatype Patch = Patch(
    mode: ParticleMode,
    particleCount: Option<nat>,
    baseSpeed: Option<real>,
    glowIntensity: Option<int>,
    particleSize: Option<real>)

  function Full(m: ParticleMode, count: nat, speed: real, glow: int, size: real): Patch {
    Patch(m, Some(count), Some(speed), Some(glow), Some(size))
  }

  /** The modes with a tuned preset; every other mode only resets the size. */
  predicate HasPreset(m: ParticleMode) {
    m in {FACE, PHOENIX, MATRIX, BLACKHOLE, RAIN, GALAXY, DNA, DUEL, ANGEL, SORCERER, TNT, SNOW, GHOST}
  }

  /** The preset table. */
  function Preset(m: ParticleMode): Patch {
    match m
    case FACE => Full(m, 2500, 1.0, 10, 2.5)
    case PHOENIX => Full(m, 3000, 1.5, 30, 2.5)
    case MATRIX => Full(m, 2000, 2.0, 5, 2.5)
    case BLACKHOLE => Full(m, 4000, 2.5, 40, 2.0)
    case RAIN => Full(m, 1500, 2.2, 2, 2.5)
    case GALAXY => Full(m, 3000, 0.8, 15, 2.5)
    case DNA => Full(m, 1200, 1.2, 12, 3.0)
    case DUEL => Full(m, 1800, 1.8, 20, 2.5)
    case ANGEL => Full(m, 1200, 1.0, 25, 2.0)
    case SORCERER => Full(m, 800, 1.2, 20, 4.0)
    case TNT => Full(m, 1000, 2.0, 30, 3.0)
    case SNOW => Full(m, 600, 0.5, 5, 4.0)
    case GHOST => Full(m, 2000, 1.0, 15, 5.0)
    case _ => Patch(m, None, None, None, Some(2.5))
  }

  /** The record spread `{...prev, ...patch}`: a key the patch sets wins, every other key is kept. */
  function Merge(prev: Config, p: Patch): Config
  {
    Config(
      if p.particleCount.Some? then p.particleCount.value else prev.particleCount,
      if p.baseSpeed.Some? then p.baseSpeed.value else prev.baseSpeed,
      if p.particleSize.Some? then p.particleSize.value else prev.particleSize,
      if p.glowIntensity.Some? then p.glowIntensity.value else prev.glowIntensity,
      p.mode)
  }

  /** The patch that sets only the mode. */
  function ModeOnly(m: ParticleMode): Patch {
    Patch(m, None, None, None, None)
  }

  /** The spread `{...p, ...q}` of two patches: a key `q` sets wins over `p`'s. */
  function Override(p: Patch, q: Patch): Patch {
    Patch(q.mode,
          if q.particleCount.Some? then q.particleCount else p.particleCount,
          if q.baseSpeed.Some? then q.baseSpeed else p.baseSpeed,
          if q.glowIntensity.Some? then q.glowIntensity else p.glowIntensity,
          if q.particleSize.Some? then q.particleSize else p.particleSize)
  }

  /** Spreading the same patch a second time changes nothing. */
  lemma MergeIdempotent(prev: Config, p: Patch)
    ensures Merge(Merge(prev, p), p) == Merge(prev, p)
  {
  }

  /** A patch that sets only the mode keeps every other key of the previous configuration. */
  lemma MergeModeOnly(prev: Config, m: ParticleMode)
    ensures Merge(prev, ModeOnly(m)) == prev.(mode := m)
  {
  }

  /** A patch that sets every key gives the same configuration whatever came before. */
  lemma MergeFullForgetsPrevious(a: Config, b: Config, m: ParticleMode, count: nat, speed: real, glow: int, size: real)
    ensures Merge(a, Full(m, count, speed, glow, size)) == Merge(b, Full(m, count, speed, glow, size))
    ensures Merge(a, Full(m, count, speed, glow, size)) == Config(count, speed, size, glow, m)
  {
  }

  /** Spreading two patches one after the other is spreading their combination once. */
  lemma MergeComposes(prev: Config, p: Patch, q: Patch)
    ensures Merge(Merge(prev, p), q) == Merge(prev, Override(p, q))
  {
  }

  function ActivateMode(prev: Config, m: ParticleMode): Config {
    Merge(prev, Preset(m))
  }

  /** The configuration right after a supernova request: full pool and strong glow. */
  function SupernovaBoost(prev: Config): Config {
    prev.(particleCount := 4000, glowIntensity := 30)
  }

  /** The delayed reset that follows a supernova request. */
  function GlowReset(prev: Config): Config {
    prev.(glowIntensity := 15)
  }

  /** The ranges the settings panel's sliders allow. */
  predicate InSliderRange(c: Config) {
    100 <= c.particleCount <= 4000 && 0.5 <= c.baseSpeed <= 3.0 && 0 <= c.glowIntensity <= 40
  }

  /** Every preset value lies within the slider ranges. */
  lemma PresetWithinRanges(m: ParticleMode)
    ensures Preset(m).mode == m && Preset(m).particleSize.Some?
    ensures Preset(m).particleCount.Some? ==> 100 <= Preset(m).particleCount.value <= 4000
    ensures Preset(m).baseSpeed.Some? ==> 0.5 <= Preset(m).baseSpeed.value <= 3.0
    ensures Preset(m).glowIntensity.Some? ==> 0 <= Preset(m).glowIntensity.value <= 40
  {
  }

  /** Activating a mode sets the mode and never leaves the slider ranges. */
  lemma ActivateModeKeepsRanges(prev: Config, m: ParticleMode)
    ensures ActivateMode(prev, m).mode == m
    ensures InSliderRange(prev) ==> InSliderRange(ActivateMode(prev, m))
  {
    PresetWithinRanges(m);
  }

  /** A tuned mode sets all four tunables, so the earlier configuration is forgotten. */
  lemma TunedModeForgetsPrevious(a: Config, b: Config, m: ParticleMode)
    requires HasPreset(m)
    ensures ActivateMode(a, m) == ActivateMode(b, m)
  {
  }

  /** An untuned mode changes only the mode and resets the size to 2.5. */
  lemma UntunedModeChangesModeAndSize(prev: Config, m: ParticleMode)
    requires !HasPreset(m)
    ensures ActivateMode(prev, m) == prev.(mode := m, particleSize := 2.5)
  {
  }

  lemma ActivateModeIdempotent(prev: Config, m: ParticleMode)
    ensures ActivateMode(ActivateMode(prev, m), m) == ActivateMode(prev, m)
  {
  }

  lemma BlackholePreset(prev: Config)
    ensures ActivateMode(prev, BLACKHOLE) == Config(4000, 2.5, 2.0, 40, BLACKHOLE)
  {
  }

  /** The supernova boost and the later glow reset touch nothing but count and glow. */
  lemma SupernovaFields(prev: Config)
    ensures SupernovaBoost(prev).particleCount == 4000 && SupernovaBoost(prev).glowIntensity == 30
    ensures SupernovaBoost(prev).(particleCount := prev.particleCount, glowIntensity := prev.glowIntensity) == prev
    ensures GlowReset(prev).glowIntensity == 15 && GlowReset(prev).(glowIntensity := prev.glowIntensity) == prev
    ensures InSliderRange(prev) ==> InSliderRange(SupernovaBoost(prev)) && InSliderRange(GlowReset(prev))
  {
  }

  lemma InitialConfigInRange()
    ensures InitialConfig == Config(1500, 1.2, 2.5, 15, SWARM)
    ensures InitialConfig.particleCount == 1500 && InitialConfig.glowIntensity == 15
    ensures InSliderRange(InitialConfig) && InitialConfig.mode == SWARM
  {
  }
}
