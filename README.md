# Lumina Touch: a Dafny model of the particle core

Lumina Touch is a full-screen particle toy. A canvas component keeps a pool of
particles that follow the mouse or a touch and form one of 23 shapes (`ParticleMode`).
An application shell holds the configuration. The user changes it with typed
commands, keyboard shortcuts and per-mode presets. A "supernova" request makes
every particle gather at the centre, explode outward, and settle.

This project models the discrete logic of that core and proves properties of
it:

- the particle pool and its glyphs: construction, `setChar`, `explode`,
  mount-time creation, and `initParticles` growing, truncating and
  re-lettering the pool in place (`Particles`, `Canvas`);
- the supernova state machine with its `setTimeout` callbacks as explicit
  pending deadlines, the trigger effect, the mouse and resize handlers
  (`Supernova`, `Canvas`);
- the per-frame case splits as pure functions: which branch `update` takes,
  which index region a shape puts a particle in, which colour band
  `updateColor` picks, which primitive `draw` uses, and the trail and glow
  settings of `animate` (`Dispatch`);
- the shell: the initial configuration, the preset table and record merge,
  the synonym parser with its lower-case-and-trim step, the shortcut table,
  the supernova boost with its delayed glow reset, and the key handler
  (`Text`, `Commands`, `AppState`).

The files are `types.dfy` (the mode enumeration, `ParticleConfig` and
`Point`), `text.dfy`, `commands.dfy`, `app.dfy`, `particles.dfy`,
`supernova.dfy`, `dispatch.dfy` and `canvas.dfy`. The mutable parts are
classes. `Particles.Particle` is the particle. `Canvas.Simulation` holds the
component's refs. `AppState.App` holds the shell's state. The shell's methods
and the simulation's clock and trigger methods are proved against a pure
function of the old state: `Simulation.Tick` and `Simulation.OnTrigger`
against `Supernova.Run` and `Supernova.Trigger`, and `App.KeyDown` against
`AppState.KeyStep`. The properties are lemmas about those functions. The
other methods (the particle's own, and the simulation's mount, pool,
explode, mouse and resize methods) state the new fields directly.

Modelling conventions:

- Numbers are `real` and `int`.
- Every `Math.random()` draw is a parameter in `[0, 1)` (`Types.Unit`). A
  sequence of draws is a function `nat -> Seeds`.
- `Date.now()` is a parameter `now`.
- A `setTimeout` is a pending deadline. Advancing the clock fires every
  deadline due by then, earliest first.
- Region tests such as `index / total < 0.7` are exact integer
  cross-multiplications (`100 * index < 70 * total`).

## Model

| member | source | states |
|---|---|---|
| Commands.InitialConfigInRange | App.tsx:9-15 | the initial configuration is count 1500, speed 1.2, size 2.5, glow 15, mode SWARM, within the slider ranges |
| Commands.Merge | App.tsx:79 | the spread `{...prev, ...patch}`; specified by `MergeIdempotent`, `MergeModeOnly`, `MergeFullForgetsPrevious` and `MergeComposes` |
| Commands.MergeIdempotent | App.tsx:79 | spreading the same patch twice equals spreading it once |
| Commands.MergeModeOnly | App.tsx:24-79 | a patch holding only the mode keeps every other key of the previous configuration |
| Commands.MergeFullForgetsPrevious | App.tsx:28-79 | a patch that sets all four tunables gives exactly those values and the mode, whatever the previous configuration |
| Commands.MergeComposes | App.tsx:79 | spreading `p` and then `q` equals spreading once the patch in which `q`'s keys win over `p`'s |
| Commands.Preset | App.tsx:23-77 | the per-mode patch of the switch; specified by `PresetWithinRanges`, `TunedModeForgetsPrevious`, `UntunedModeChangesModeAndSize` and `BlackholePreset` |
| Commands.HasPreset | App.tsx:28-71 | the thirteen modes with a tuned case; `TunedModeForgetsPrevious` and `UntunedModeChangesModeAndSize` state what each side of it does |
| Commands.ActivateMode | App.tsx:23-80 | `activateMode`; specified by `ActivateModeKeepsRanges`, `ActivateModeIdempotent` and the preset lemmas |
| Commands.SupernovaBoost | App.tsx:83 | the boost of `triggerSupernova`; specified by `SupernovaFields` |
| Commands.GlowReset | App.tsx:85-87 | the delayed glow reset; specified by `SupernovaFields` |
| Commands.PresetWithinRanges | App.tsx:26-77 | every preset sets the mode and a size; every preset count lies in [100, 4000], speed in [0.5, 3], glow in [0, 40] |
| Commands.ActivateModeKeepsRanges | App.tsx:23-80 | activating a mode always sets that mode and keeps a configuration inside the slider ranges |
| Commands.TunedModeForgetsPrevious | App.tsx:28-71 | a tuned mode sets all four tunables, so the result does not depend on the previous configuration |
| Commands.UntunedModeChangesModeAndSize | App.tsx:73-76 | the default branch changes only the mode and resets the size to 2.5 |
| Commands.ActivateModeIdempotent | App.tsx:23-80 | activating the same mode twice equals activating it once |
| Commands.BlackholePreset | App.tsx:37-39 | BLACKHOLE gives count 4000, speed 2.5, glow 40, size 2.0, whatever came before |
| Commands.SupernovaFields | App.tsx:82-88 | the boost sets count 4000 and glow 30, the delayed reset sets glow 15, each touching nothing else and staying in range |
| Text.LowerChar | App.tsx:92 | lowering maps A-Z up by 32 and fixes every other character; it never yields an upper-case letter and keeps white space |
| Text.Lower | App.tsx:92 | `toLowerCase()` keeps the length and lowers each character in place |
| Text.TrimStart | App.tsx:92 | drops exactly a leading run of white space; the result is a suffix and does not start with white space |
| Text.TrimEnd | App.tsx:92 | drops exactly a trailing run of white space; the result is a prefix and does not end with white space |
| Text.LowerAppend | App.tsx:92 | lowering distributes over concatenation |
| Text.LowerIdempotent | App.tsx:92 | lowering twice is lowering once |
| Text.LowerOfSpace | App.tsx:92 | lowering an all-space string leaves it all space |
| Text.TrimStartOfSpacePrefix | App.tsx:92 | a white-space prefix is removed by trimming the start |
| Text.TrimEndOfSpaceSuffix | App.tsx:92 | a white-space suffix is removed by trimming the end |
| Text.TrimStartAppend | App.tsx:92 | trimming the start of `s + q` gives the trimmed `s` followed by `q` when `s` has a non-space character, and the trimmed `q` otherwise |
| Text.TrimOfSpace | App.tsx:92 | an all-space string trims to the empty string |
| Text.TrimPadded | App.tsx:92 | padding a string with white space on both sides does not change its trim |
| Text.LowerTrimStart | App.tsx:92 | lowering commutes with trimming the start |
| Text.LowerTrimEnd | App.tsx:92 | lowering commutes with trimming the end |
| Text.TrimStartIdempotent | App.tsx:92 | trimming the start twice is trimming it once |
| Text.TrimEndIdempotent | App.tsx:92 | trimming the end twice is trimming it once |
| Text.TrimIdempotent | App.tsx:92 | `trim()` twice is `trim()` once |
| Text.TrimOfUnpadded | App.tsx:92 | a string that neither starts nor ends with white space is its own trim |
| Text.TrimEndOfSpace | App.tsx:92 | an all-space string trims at the end to the empty string |
| Text.Trim | App.tsx:92 | `trim()`; specified by `TrimIdempotent`, `TrimPadded`, `TrimOfSpace` and `TrimOfUnpadded` |
| Text.Normalize | App.tsx:92 | `command.toLowerCase().trim()`; specified by `NormalizeIdempotent`, `NormalizeLowerWord` and the `Commands` case and padding lemmas |
| Text.NormalizeLowerWord | App.tsx:92 | a word of the letters a-z is unchanged by lower-casing and trimming |
| Text.NormalizeIdempotent | App.tsx:92 | lower-casing and trimming a normalized command changes nothing |
| Commands.Synonym | App.tsx:94-154 | the `switch (cmd)` table; specified by `SynonymSelects` and `SynonymSupernova` |
| Commands.CommandAction | App.tsx:90-154 | the typed-command parser: normalize, then look up; specified by `EveryModeHasACommand`, `CommandIgnoresCase` and `CommandIgnoresPadding` |
| Commands.BasicShapeWordsSelect | App.tsx:96-107 | each listed word for SWARM through HOURGLASS selects its mode |
| Commands.CreativeWordsSelect | App.tsx:110-117 | each listed word for DUEL, GALAXY, DNA and FACE selects its mode |
| Commands.HighConceptWordsSelect | App.tsx:120-130 | each listed word for PHOENIX, BLACKHOLE, MATRIX and RAIN selects its mode |
| Commands.WingAndRuneWordsSelect | App.tsx:133-139 | each listed word for ANGEL and SORCERER selects its mode |
| Commands.ElementalWordsSelect | App.tsx:140-148 | each listed word for TNT, SNOW and GHOST selects its mode |
| Commands.ListedWordsSelect | App.tsx:94-154 | every word listed for mode `m` selects `m` |
| Commands.OnlyListedWordsSelect | App.tsx:94-154 | a word that selects `m` is one of the words listed for `m`; no other string selects it |
| Commands.SynonymSelects | App.tsx:94-154 | a word selects `m` if and only if it is listed for `m`, so the table is a function from words to modes |
| Commands.SynonymSupernova | App.tsx:150-151 | exactly "supernova" and "explode" request the supernova |
| Commands.ListedWordsAreLower | App.tsx:96-148 | every word of the synonym table is made of the letters a-z |
| Commands.EveryModeHasACommand | App.tsx:90-148 | every one of the 23 modes has a word, and each of its words, typed as it is, selects it through the parser `CommandAction` |
| Commands.CommandIgnoresCase | App.tsx:92 | lower-casing the command first never changes the action |
| Commands.CommandIgnoresPadding | App.tsx:92 | white space around the command never changes the action |
| Commands.LowerHeart | App.tsx:92 | "Heart", "HEART" and "heart" lower to "heart" |
| Commands.NormalizeHeart | App.tsx:92 | "Heart", "HEART" and "heart" normalize to "heart" |
| Commands.HeartCommand | App.tsx:92-100 | any of those spellings, between any white space, selects HEART |
| Commands.PaddedHeart | App.tsx:92-100 | " Heart " selects HEART |
| Commands.CapitalisedHeart | App.tsx:92-100 | "HEART" selects HEART |
| Commands.Shortcut | App.tsx:174-193 | the shortcut `switch` on the lower-cased key; specified by `ShortcutSelects`, `ShortcutSupernova` and `ShortcutKeysAreSingleCharacters` |
| Commands.KeyAction | App.tsx:174-193 | the key is lower-cased and then looked up; specified by `UpperCaseShortcut` |
| Commands.ShortcutSelects | App.tsx:174-190 | a lower-cased key selects `m` if and only if it is the key bound to `m` |
| Commands.ShortcutSupernova | App.tsx:192 | only "d" requests the supernova |
| Commands.ShortcutKeysAreSingleCharacters | App.tsx:174-193 | a key with an entry is one character long, so named keys such as "Shift" do nothing |
| Commands.UpperCaseShortcut | App.tsx:174 | "S" selects SWORD and "D" requests the supernova, because the key is lower-cased first |
| AppState.SubmitClears | App.tsx:90-156 | the command field is empty after every submit; an unrecognised command changes nothing else, and the bar's visibility never changes |
| AppState.SubmitActivates | App.tsx:94-148 | a recognised mode command applies exactly that mode's preset merge |
| AppState.SubmitPaddedHeart | App.tsx:90-100 | submitting " Heart " puts the configuration in HEART mode |
| AppState.FocusedKeys | App.tsx:160-166 | while the field has focus, Escape blurs it and hides the bar, and every other key changes nothing |
| AppState.EnterShowsInput | App.tsx:168-172 | otherwise Enter shows the bar and schedules focusing 10 ms later, and nothing else |
| AppState.ShortcutKeys | App.tsx:174-193 | an unlisted key changes nothing; a listed key activates its mode or triggers the supernova |
| AppState.ShortcutExamples | App.tsx:175-192 | "d" emits a new token and raises the count to 4000; "1" selects SWARM |
| AppState.TriggerStep | App.tsx:82-88 | `triggerSupernova` on the shell's state; specified by `SupernovaGlowCycle` and `SecondSupernovaGlowCutShort` |
| AppState.Perform | App.tsx:94-152 | what a command's or a shortcut's action does; specified by `SubmitActivates` and `ShortcutKeys` |
| AppState.SubmitStep | App.tsx:90-156 | `handleCommandSubmit` on the shell's state; specified by `SubmitClears`, `SubmitActivates` and `SubmitPaddedHeart` |
| AppState.KeyStep | App.tsx:159-194 | the key handler on the shell's state; specified by `FocusedKeys`, `EnterShowsInput`, `ShortcutKeys` and `ShortcutExamples` |
| AppState.TimerStep | App.tsx:85-87 | advancing the clock runs the due callbacks; specified by `TimerStepIdempotent` and `SupernovaGlowCycle` |
| AppState.SupernovaGlowCycle | App.tsx:82-88 | from a shell with no pending timer, after a supernova request the glow is 30 until 2000 ms have passed and 15 afterwards, with count 4000 kept and no timer left |
| AppState.SecondSupernovaGlowCutShort | App.tsx:82-88 | the reset timer is never cancelled: a second request less than 2000 ms after the first is back at glow 15 when the first reset falls due, with its own reset still pending |
| AppState.TimerStepIdempotent | App.tsx:85-87 | advancing the clock twice to the same time runs no callback twice |
| AppState.AnyDueMeans | App.tsx:85-87 | a job is due exactly when some pending timer for it is due |
| AppState.LaterKeepsUndue | App.tsx:85-87 | advancing the clock keeps exactly the timers not yet due |
| AppState.LaterIsStable | App.tsx:85-87 | with nothing due, advancing the clock keeps every timer |
| AppState.LaterSnoc | App.tsx:85-87 | the kept timers of a longer list extend those of its prefix |
| AppState.AnyDueSnoc | App.tsx:85-87 | a job is due in a longer list when it is due in the prefix or in the new timer |
| AppState.App.constructor | App.tsx:9-19 | the shell starts with the initial configuration, an empty field, the bar hidden, token 0 and no timers |
| AppState.App.ActivateMode | App.tsx:23-80 | the configuration becomes the preset merge for `m`; nothing else changes |
| AppState.App.TriggerSupernova | App.tsx:82-88 | boosts count and glow, stores `now` as the token and schedules the glow reset 2000 ms later |
| AppState.App.Run | App.tsx:94-152 | performs a command's or a shortcut's action, as `Perform` states |
| AppState.App.Edit | App.tsx:228 | the field's text becomes the typed text |
| AppState.App.Submit | App.tsx:90-156 | the new state is `SubmitStep` of the old one |
| AppState.App.KeyDown | App.tsx:159-194 | the new state is `KeyStep` of the old one |
| AppState.App.Focus | App.tsx:229 | focusing shows the bar |
| AppState.App.Blur | App.tsx:230 | blurring hides the bar |
| AppState.App.Tick | App.tsx:85-87 | runs every due callback in scheduling order and keeps the rest; the new state is `TimerStep` of the old one |
| Particles.Alphabet | components/ParticleCanvas.tsx:56-64 | the glyph table of each mode: the runes, the snowflakes, or none; specified by `GlyphFor` |
| Particles.SpawnMotion | components/ParticleCanvas.tsx:39-52 | the constructor's position, velocity and rotation draws; specified by `SpawnMotionBounds` |
| Particles.SpawnTraits | components/ParticleCanvas.tsx:44-50 | the constructor's fixed traits; specified by `SpawnTraitsBounds` |
| Particles.SpawnTeam | components/ParticleCanvas.tsx:50 | the duel team from its draw; specified by `SpawnTraitsBounds` |
| Particles.PickIndex | components/ParticleCanvas.tsx:58 | `Math.floor(u * n)` is a valid index into a table of `n` entries |
| Particles.PickReachesEveryIndex | components/ParticleCanvas.tsx:58 | every entry of a glyph table can be drawn |
| Particles.GlyphFor | components/ParticleCanvas.tsx:56-64 | the glyph is in the mode's alphabet (runes for SORCERER, snowflakes for SNOW, `""` otherwise) and is non-empty exactly in those two modes |
| Particles.SpawnMotionBounds | components/ParticleCanvas.tsx:39-52 | a new particle lies on the screen, with each velocity component in [-1, 1) and rotation in [0, 360) |
| Particles.SpawnTraitsBounds | components/ParticleCanvas.tsx:44-50 | radius in [0.5, size + 0.5), base alpha in [0.5, 1), friction 0.94, ease in [0.05, 0.1), team 0 exactly when its draw exceeds 0.5 |
| Particles.Particle.constructor | components/ParticleCanvas.tsx:38-53 | a new particle's fields are those the draws give, with no glyph |
| Particles.Particle.SetGlyph | components/ParticleCanvas.tsx:56-64 | `setChar` sets the glyph to a draw from the mode's alphabet and changes nothing else |
| Particles.Particle.Explode | components/ParticleCanvas.tsx:66-71 | `explode` overwrites the velocity with the impulse and changes nothing else |
| Particles.SpawnAll | components/ParticleCanvas.tsx:647-651 | creates `n` distinct fresh particles, the `k`-th built and lettered from the `k`-th draws |
| Canvas.Simulation.Mount | components/ParticleCanvas.tsx:633-654 | after mounting, the canvas has the window's size, the target is the window's centre, nothing has interacted, the machine is at rest, and the pool has `particleCount` fresh particles lettered for the mode |
| Canvas.Simulation.Adjust | components/ParticleCanvas.tsx:598-609 | the pool has exactly `n` particles: the old ones stay first, in order; any growth is fresh particles built from the draws |
| Canvas.Simulation.Reletter | components/ParticleCanvas.tsx:612 | every particle is re-lettered from its own draw, and no particle moves |
| Canvas.Simulation.InitParticles | components/ParticleCanvas.tsx:594-614 | the pool has exactly `particleCount` particles; kept particles keep their place and motion; new particles follow; every glyph is in the mode's alphabet |
| Canvas.Simulation.ExplodeAll | components/ParticleCanvas.tsx:624 | every particle's velocity becomes its impulse; position, rotation and glyph are unchanged |
| Canvas.Simulation.OnTrigger | components/ParticleCanvas.tsx:616-631 | the trigger effect changes the machine exactly as `Trigger` does |
| Canvas.Simulation.FireDeadline | components/ParticleCanvas.tsx:620-629 | firing a burst kicks every particle and enters EXPLODING with a settle deadline 800 ms later; firing a settle returns to NORMAL and moves nothing |
| Canvas.Simulation.FireNext | components/ParticleCanvas.tsx:620-629 | firing the next due deadline keeps the record of what the clock advance has done |
| Canvas.Simulation.Tick | components/ParticleCanvas.tsx:620-629 | the machine becomes `Run`'s; if some burst fired, every particle has its impulse; otherwise no particle moved; no glyph changes |
| Canvas.Simulation.MouseMove | components/ParticleCanvas.tsx:716-728 | while GATHERING a move is ignored; otherwise it sets the target and marks interaction |
| Canvas.Simulation.Resize | components/ParticleCanvas.tsx:634-642 | the canvas takes the new size; the target is recentred only when nothing has interacted |
| Canvas.Simulation.Frame | components/ParticleCanvas.tsx:660-707 | the frame's trail, blur and tint, and for each particle in pool order its branch, colour band and primitive |
| Canvas.LetteredPoolDrawsGlyphs | components/ParticleCanvas.tsx:557-567 | in a glyph mode, every particle of a lettered pool draws its glyph |
| Canvas.LetteredPoolIsBlank | components/ParticleCanvas.tsx:62 | in any other mode, every glyph of a lettered pool is empty |
| Supernova.Trigger | components/ParticleCanvas.tsx:617-620 | the trigger effect on the machine; specified by `TriggerGuard`, `TriggerIdempotent` and `TriggerKeepsDeadlines` |
| Supernova.TriggerGuard | components/ParticleCanvas.tsx:617-619 | a zero token or the last one seen changes nothing; any other token becomes the last one and starts gathering |
| Supernova.TriggerIdempotent | components/ParticleCanvas.tsx:617 | re-sending a token, at any time, changes nothing |
| Supernova.TriggerKeepsDeadlines | components/ParticleCanvas.tsx:620 | a token never cancels a pending deadline; an accepted one appends exactly one burst 800 ms out |
| Supernova.Earliest | components/ParticleCanvas.tsx:620-629 | the deadline that fires first has the smallest due time and the earliest scheduling among ties |
| Supernova.NextDue | components/ParticleCanvas.tsx:620-629 | a deadline is due when one is due by `now`; none is due exactly when all lie after `now` |
| Supernova.Fire | components/ParticleCanvas.tsx:620-629 | firing removes the deadline and keeps every other one; a burst enters EXPLODING and adds a settle 800 ms after it; a settle returns to NORMAL; nothing else is added; the last token is kept |
| Supernova.Run | components/ParticleCanvas.tsx:620-629 | advancing the clock leaves only deadlines after `now` pending, keeps every deadline not yet due, and keeps the last token |
| Supernova.RunFiresNext | components/ParticleCanvas.tsx:620-629 | advancing the clock fires the next due deadline first |
| Supernova.RunIdle | components/ParticleCanvas.tsx:620-629 | with nothing due, advancing the clock changes nothing |
| Supernova.RunComposes | components/ParticleCanvas.tsx:620-629 | advancing to `t1` then to `t2` is advancing to `t2` at once, so the outcome does not depend on the frame rate |
| Supernova.OneCycle | components/ParticleCanvas.tsx:616-631 | from rest, a token gives GATHERING for 800 ms, EXPLODING with one burst for 800 ms, then NORMAL with nothing pending |
| Supernova.SecondTokenWhileGathering | components/ParticleCanvas.tsx:616-631 | a second token while gathering cancels nothing: the first burst still fires 800 ms after the first token |
| Supernova.SecondTokenWhileExploding | components/ParticleCanvas.tsx:616-631 | a second token while exploding re-enters GATHERING, and the first token's settle then returns to NORMAL with the second burst still pending |
| Dispatch.OwnPhysics | components/ParticleCanvas.tsx:188-272 | the six modes with their own physics; specified with the branch by `UpdateBranch` and `OwnPhysicsBranchesDiffer` |
| Dispatch.UpdateBranch | components/ParticleCanvas.tsx:165-272 | GATHERING and EXPLODING pre-empt every mode; otherwise TNT, SNOW, GHOST, MATRIX, RAIN and BLACKHOLE use their own physics, and all other modes steer |
| Dispatch.OverridesIgnoreMode | components/ParticleCanvas.tsx:165-184 | during a supernova the mode does not affect the branch |
| Dispatch.OwnPhysicsBranchesDiffer | components/ParticleCanvas.tsx:188-272 | each own-physics mode has a branch of its own |
| Dispatch.BelowIsPrefix | components/ParticleCanvas.tsx:363 | a test `index / total < num / den` holds exactly for the indexes below `ceil(num * total / den)` |
| Dispatch.ThresholdOrdered | components/ParticleCanvas.tsx:363-375 | thresholds grow with the fraction and never pass `total` |
| Dispatch.BelowMonotone | components/ParticleCanvas.tsx:363-375 | passing a lower cut-off implies passing a higher one |
| Dispatch.SwordRegion | components/ParticleCanvas.tsx:362-375 | the sword's part for an index; specified by `SwordBlocks` |
| Dispatch.SpearRegion | components/ParticleCanvas.tsx:377-388 | the spear's part for an index; specified by `SpearBlocks` |
| Dispatch.FaceRegion | components/ParticleCanvas.tsx:428-466 | the face's part for an index; specified by `FaceBlocks` |
| Dispatch.PhoenixRegion | components/ParticleCanvas.tsx:470-487 | the phoenix's part for an index; specified by `PhoenixBlocks` |
| Dispatch.SaturnRegion | components/ParticleCanvas.tsx:344 | planet or ring for an index; specified by `SaturnBlocks` |
| Dispatch.AngelSide | components/ParticleCanvas.tsx:291-295 | the wing for an index; specified with the progress by `AngelProgress` |
| Dispatch.RingSpeed | components/ParticleCanvas.tsx:278-281 | a ring's signed spin; specified by `RingsNest` |
| Dispatch.DuelCentreX | components/ParticleCanvas.tsx:511-514 | a duellist's centre; specified by `DuelMirror` |
| Dispatch.Tinted | components/ParticleCanvas.tsx:73-146 | the modes with a colour rule; specified by `ColourFor` |
| Dispatch.FrameStyle | components/ParticleCanvas.tsx:660-684 | a frame's trail, blur and tint; specified by `TrailAlpha` and `GlowTint`, and used by `Canvas.Simulation.Frame` |
| Dispatch.SwordBlocks | components/ParticleCanvas.tsx:362-375 | blade, guard and hilt are three consecutive index blocks that cover the pool |
| Dispatch.SpearBlocks | components/ParticleCanvas.tsx:377-388 | the spear tip is the first block of indexes and the shaft the rest |
| Dispatch.FaceBlocks | components/ParticleCanvas.tsx:428-466 | skull, left eye, right eye and mouth are four consecutive index blocks that cover the pool |
| Dispatch.PhoenixBlocks | components/ParticleCanvas.tsx:470-487 | body, left wing, right wing and tail are four consecutive index blocks that cover the pool |
| Dispatch.SaturnBlocks | components/ParticleCanvas.tsx:344 | the planet is the block that ends at `floor(0.6 * total)`, that index included; the ring is the rest |
| Dispatch.AngelProgress | components/ParticleCanvas.tsx:291-295 | the progress along a wing is in [0, 1): `2i` on the right wing, `2i - 1` on the left wing |
| Dispatch.RuneRing | components/ParticleCanvas.tsx:278 | the ring index is below 5 and congruent to the particle index modulo 5 |
| Dispatch.RingRadius | components/ParticleCanvas.tsx:279 | the ring radii are 60, 110, 160, 210 and 260 |
| Dispatch.RingDirection | components/ParticleCanvas.tsx:280 | the direction is +1 exactly for even rings, else -1 |
| Dispatch.RingsNest | components/ParticleCanvas.tsx:278-281 | outer rings are wider, neighbours spin in opposite directions, and outer rings spin faster |
| Dispatch.RuneRingPeriodic | components/ParticleCanvas.tsx:278 | indexes five apart share a ring |
| Dispatch.GalaxyArmTurns | components/ParticleCanvas.tsx:408-409 | even indexes take the first arm, odd indexes the second, half a turn away |
| Dispatch.DuelBodyPart | components/ParticleCanvas.tsx:516-529 | the draw splits into head below 0.2, torso below 0.6, and limbs after |
| Dispatch.DuelMirror | components/ParticleCanvas.tsx:511-514 | the two duellists are mirror images about the target, whatever the sway |
| Dispatch.DnaPhaseTurns | components/ParticleCanvas.tsx:418-422 | the strand is the team tag, and the second strand is half a turn out of phase |
| Dispatch.ColourFor | components/ParticleCanvas.tsx:73-146 | the particle keeps its base colour exactly in the modes without a colour rule |
| Dispatch.TntBands | components/ParticleCanvas.tsx:77-84 | TNT's four bands cut the draw at 0.3, 0.6 and 0.9, each band closed at its upper end |
| Dispatch.PhoenixBands | components/ParticleCanvas.tsx:121-127 | PHOENIX's four bands cut the draw at 0.1, 0.4 and 0.7, each band closed at its lower end |
| Dispatch.RuneBands | components/ParticleCanvas.tsx:86-92 | SORCERER's colour is cyan, purple or gold by `index % 3` alone |
| Dispatch.AngelBands | components/ParticleCanvas.tsx:94-100 | an ANGEL particle is gold exactly when its index is a multiple of 10 |
| Dispatch.GoldCountIsTenth | components/ParticleCanvas.tsx:96 | `ceil(n / 10)` of the first `n` angel particles are gold |
| Dispatch.TeamBands | components/ParticleCanvas.tsx:111-116 | DUEL and DNA colour by team alone, team 0 blue or green respectively |
| Dispatch.DrawnBands | components/ParticleCanvas.tsx:117-136 | the galaxy's red channel lies in [100, 200); BLACKHOLE's horizon band is a draw above 0.8, otherwise the depth is the draw; MATRIX's head is a draw above 0.95 |
| Dispatch.DrawPrimitive | components/ParticleCanvas.tsx:551-582 | TNT draws squares; a glyph mode with a glyph draws that glyph; ANGEL draws feathers; everything else draws discs |
| Dispatch.LetteredParticlesDrawGlyphs | components/ParticleCanvas.tsx:557 | a particle lettered for its mode draws its glyph exactly in the glyph modes |
| Dispatch.TrailAlpha | components/ParticleCanvas.tsx:667-670 | the trail is 0.05 while EXPLODING; otherwise 0.3 for TNT, 0.05 for GHOST, and 0.15 for every other mode |
| Dispatch.GlowTint | components/ParticleCanvas.tsx:678-684 | the glow is white exactly for the modes outside PHOENIX, MATRIX, BLACKHOLE, SORCERER, TNT and ANGEL |
| Dispatch.GlowTintInjective | components/ParticleCanvas.tsx:678-684 | a non-white tint identifies its mode |

## Left out

- Floating-point motion: the update formulas, the ease-to-target step, the override damping and every `Math.sin`, `cos`, `atan2`, `sqrt`, `acos` and `pow`. Positions and velocities are carried as opaque `real` fields. Dafny has no IEEE floats or trigonometry.
- `Math.random()` and `Date.now()`: each draw is a parameter in [0, 1), and each time is a parameter `now`.
- Particles.Particle.Explode: the impulse `cos(angle) * force` with its random angle and force is a parameter, and the unused centre arguments are dropped.
- Colours are band tags. The `rgba(...)` strings and their random alpha are not modelled.
- Canvas drawing calls, `requestAnimationFrame`, window listeners, React hooks and JSX are not modelled, nor is removing listeners on unmount.
- The null checks on the canvas ref in the resize handler and the explode callback are not modelled: the canvas is assumed present.
- Canvas.Simulation.Tick: the source makes fresh draws at every burst. Here one clock advance uses a single impulse function for all its bursts, which stands for the draws of the last one.
- The rotation that `update` gives SORCERER and SNOW particles is not modelled.
- The angle offset is stored in turns, not radians.
- `particleCount` is a `nat`. A negative count passed to `splice` is not modelled. The sliders keep the count in [100, 4000].
- The config prop that the shell passes to the canvas is not composed with the canvas model. Each side is modelled on its own.
- `components/Controls.tsx` is not part of this model. Its slider ranges are the bounds named in `InSliderRange`.
- Text.Lower, Text.TrimStart, Text.TrimEnd: these handle ASCII letters and ASCII white space only. `toLowerCase()` and `trim()` also cover the rest of Unicode.
- Dispatch.SaturnBlocks, Dispatch.SwordBlocks, Dispatch.SpearBlocks, Dispatch.FaceBlocks, Dispatch.PhoenixBlocks, Dispatch.AngelProgress: region and wing boundaries are exact rationals. The source's float `index / total` can differ from them at an exact boundary.
- AppState.App.Tick: due timers fire in scheduling order rather than by due time. The two jobs touch different fields and each is idempotent, so the resulting state is the same.
- AppState.App.KeyDown: "the field has focus" is the `focused` flag, which the field's focus and blur handlers maintain. The input's own `document.activeElement` check is not modelled.
