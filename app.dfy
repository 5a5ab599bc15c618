/**
 * The application shell's state: the configuration, the command field, the
 * command bar's visibility and focus, the supernova token handed to the
 * canvas, and the two kinds of delayed callback it schedules. The pure
 * transition functions state what each handler does; the `App` class
 * performs the same updates in place and is proved to agree with them.
 */
module AppState {
  import opened Types
  import opened Commands

  /** The callbacks the shell schedules: the glow reset after a supernova, and focusing the command field. */
  datatype Job = ResetGlow | FocusInput

  datatype Timer = Timer(due: int, job: Job)

  /** How long the supernova glow lasts, and how long the command field waits before taking focus, in ms. */
  const GlowDelay := 2000
  const FocusDelay := 10

  /** The shell's state as a value. */
  datatype Shell = Shell(
    config: Config, command: string, showInput: bool, focused: bool, trigger: int, timers: seq<Timer>)

  const Start := Shell(InitialConfig, "", false, false, 0, [])

  /** `triggerSupernova` at time `now`: boost, a fresh token, and a glow reset `GlowDelay` later. */
  function TriggerStep(u: Shell, now: int): Shell {
    u.(config := SupernovaBoost(u.config), trigger := now, timers := u.timers + [Timer(now + GlowDelay, ResetGlow)])
  }

  /** What an action from the command bar or the keyboard does. */
  function Perform(u: Shell, a: Option<Action>, now: int): Shell {
    match a
    case None => u
    case Some(Activate(m)) => u.(config := ActivateMode(u.config, m))
    case Some(Supernova) => TriggerStep(u, now)
  }

  /** `handleCommandSubmit`: runs the typed command, recognised or not, and clears the field. */
  function SubmitStep(u: Shell, now: int): Shell {
    Perform(u, CommandAction(u.command), now).(command := "")
  }

  /** `handleKeyDown` for the key named `key`. */
  function KeyStep(u: Shell, key: string, now: int): Shell {
    if u.focused then
      if key == "Escape" then u.(focused := false, showInput := false) else u
    else if key == "Enter" then
      u.(showInput := true, timers := u.timers + [Timer(now + FocusDelay, FocusInput)])
    else
      Perform(u, KeyAction(key), now)
  }

  /** Whether some timer of `ts` for `job` is due by `now`. */
  function AnyDue(ts: seq<Timer>, now: int, job: Job): bool {
    if ts == [] then false
    else (ts[0].due <= now && ts[0].job == job) || AnyDue(ts[1..], now, job)
  }

  /** The timers of `ts` not yet due at `now`, in order. */
  function Later(ts: seq<Timer>, now: int): seq<Timer> {
    if ts == [] then []
    else (if ts[0].due > now then [ts[0]] else []) + Later(ts[1..], now)
  }

  /**
   * Advancing the clock to `now` runs every due callback. The two jobs touch
   * disjoint state and each is idempotent, so their firing order does not
   * matter: the result depends only on which kinds are due.
   */
  function TimerStep(u: Shell, now: int): Shell {
    var focus := AnyDue(u.timers, now, FocusInput);
    u.(config := if AnyDue(u.timers, now, ResetGlow) then GlowReset(u.config) else u.config,
       showInput := u.showInput || focus,
       focused := u.focused || focus,
       timers := Later(u.timers, now))
  }

  // ---------------------------------------------------------------------
  // Properties of the handlers

  /** The command field is empty after every submit; an unrecognised command changes nothing else. */
  lemma SubmitClears(u: Shell, now: int)
    ensures SubmitStep(u, now).command == ""
    ensures CommandAction(u.command).None? ==> SubmitStep(u, now) == u.(command := "")
    ensures SubmitStep(u, now).showInput == u.showInput && SubmitStep(u, now).focused == u.focused
  {
  }

  /** A recognised mode command activates exactly that mode. */
  lemma SubmitActivates(u: Shell, now: int, m: ParticleMode)
    requires CommandAction(u.command) == Some(Activate(m))
    ensures SubmitStep(u, now) == u.(config := ActivateMode(u.config, m), command := "")
  {
  }

  /** Typing " Heart " and submitting selects the heart mode. */
  lemma SubmitPaddedHeart(u: Shell, now: int)
    requires u.command == " Heart "
    ensures SubmitStep(u, now).config.mode == HEART
  {
    PaddedHeart();
    ActivateModeKeepsRanges(u.config, HEART);
  }

  /** While the command field has focus, every key but Escape is ignored; Escape hides the bar. */
  lemma FocusedKeys(u: Shell, key: string, now: int)
    requires u.focused
    ensures key != "Escape" ==> KeyStep(u, key, now) == u
    ensures key == "Escape" ==> KeyStep(u, key, now) == u.(focused := false, showInput := false)
  {
  }

  /** Otherwise Enter shows the bar and asks for focus `FocusDelay` later, and nothing else. */
  lemma EnterShowsInput(u: Shell, now: int)
    requires !u.focused
    ensures KeyStep(u, "Enter", now) == u.(showInput := true, timers := u.timers + [Timer(now + FocusDelay, FocusInput)])
  {
  }

  /** An unlisted key does nothing; a listed one does what its table entry says. */
  lemma ShortcutKeys(u: Shell, key: string, now: int)
    requires !u.focused && key != "Enter"
    ensures KeyAction(key).None? ==> KeyStep(u, key, now) == u
    ensures forall m :: KeyAction(key) == Some(Activate(m)) ==>
      KeyStep(u, key, now) == u.(config := ActivateMode(u.config, m))
    ensures KeyAction(key) == Some(Supernova) ==> KeyStep(u, key, now) == TriggerStep(u, now)
  {
  }

  /** The "d" key requests a supernova, "1" selects the swarm. */
  lemma ShortcutExamples(u: Shell, now: int)
    requires !u.focused
    ensures KeyStep(u, "d", now).trigger == now && KeyStep(u, "d", now).config.particleCount == 4000
    ensures KeyStep(u, "1", now).config.mode == SWARM
  {
    assert Text.Lower("d") == "d" && Text.Lower("1") == "1";
    ActivateModeKeepsRanges(u.config, SWARM);
  }

  /**
   * A supernova request from rest glows at 30 until its reset falls due and
   * at 15 from then on, with the boosted count kept.
   */
  lemma SupernovaGlowCycle(u: Shell, now: int, later: int)
    requires u.timers == []
    ensures later < now + GlowDelay ==>
      TimerStep(TriggerStep(u, now), later).config == u.config.(particleCount := 4000, glowIntensity := 30)
    ensures later >= now + GlowDelay ==>
      TimerStep(TriggerStep(u, now), later).config == u.config.(particleCount := 4000, glowIntensity := 15)
    ensures later >= now + GlowDelay ==> TimerStep(TriggerStep(u, now), later).timers == []
  {
    var w := TriggerStep(u, now);
    assert w.timers == [Timer(now + GlowDelay, ResetGlow)];
    assert w.timers[1..] == [];
    assert AnyDue(w.timers, later, ResetGlow) <==> later >= now + GlowDelay;
    assert !AnyDue(w.timers, later, FocusInput);
    assert later >= now + GlowDelay ==> Later(w.timers, later) == [] + Later([], later);
  }

  /**
   * The glow resets are never cancelled: a second request `gap` ms after the
   * first loses its strong glow when the first request's reset falls due,
   * while its own reset is still pending.
   */
  lemma SecondSupernovaGlowCutShort(u: Shell, now: int, gap: int)
    requires u.timers == [] && 0 < gap < GlowDelay
    ensures TimerStep(TriggerStep(TriggerStep(u, now), now + gap), now + GlowDelay).config.glowIntensity == 15
    ensures TimerStep(TriggerStep(TriggerStep(u, now), now + gap), now + GlowDelay).timers
      == [Timer(now + gap + GlowDelay, ResetGlow)]
  {
    var w := TriggerStep(TriggerStep(u, now), now + gap);
    assert w.timers == [Timer(now + GlowDelay, ResetGlow), Timer(now + gap + GlowDelay, ResetGlow)];
    assert w.timers[1..] == [w.timers[1]] && w.timers[1..][1..] == [];
    assert AnyDue(w.timers, now + GlowDelay, ResetGlow);
    assert !AnyDue(w.timers[1..], now + GlowDelay, FocusInput);
    assert Later(w.timers, now + GlowDelay) == [] + ([w.timers[1]] + Later([], now + GlowDelay));
  }

  /** The clock never runs a callback twice: a second advance to the same time changes nothing. */
  lemma TimerStepIdempotent(u: Shell, now: int)
    ensures TimerStep(TimerStep(u, now), now) == TimerStep(u, now)
  {
    var v := TimerStep(u, now);
    LaterKeepsUndue(u.timers, now);
    forall i | 0 <= i < |v.timers|
      ensures v.timers[i].due > now
    {
      assert v.timers[i] in v.timers;
    }
    AnyDueMeans(v.timers, now, ResetGlow);
    AnyDueMeans(v.timers, now, FocusInput);
    LaterIsStable(v.timers, now);
  }

  /** `AnyDue` is the existence of a due timer for the job. */
  lemma {:induction false} AnyDueMeans(ts: seq<Timer>, now: int, job: Job)
    ensures AnyDue(ts, now, job) <==> exists i :: 0 <= i < |ts| && ts[i].due <= now && ts[i].job == job
  {
    if ts != [] {
      AnyDueMeans(ts[1..], now, job);
      if AnyDue(ts[1..], now, job) {
        var i :| 0 <= i < |ts| - 1 && ts[1..][i].due <= now && ts[1..][i].job == job;
        assert ts[i + 1] == ts[1..][i];
      }
      if exists i :: 0 <= i < |ts| && ts[i].due <= now && ts[i].job == job {
        var i :| 0 <= i < |ts| && ts[i].due <= now && ts[i].job == job;
        if i > 0 {
          assert ts[1..][i - 1] == ts[i];
        }
      }
    }
  }

  /** `Later` keeps exactly the timers not yet due. */
  lemma {:induction false} LaterKeepsUndue(ts: seq<Timer>, now: int)
    ensures |Later(ts, now)| <= |ts|
    ensures forall t :: t in Later(ts, now) <==> t in ts && t.due > now
  {
    if ts != [] {
      LaterKeepsUndue(ts[1..], now);
      assert ts == [ts[0]] + ts[1..];
    }
  }

  lemma {:induction false} LaterIsStable(ts: seq<Timer>, now: int)
    requires forall i :: 0 <= i < |ts| ==> ts[i].due > now
    ensures Later(ts, now) == ts
  {
    if ts != [] {
      LaterIsStable(ts[1..], now);
    }
  }

  // ---------------------------------------------------------------------
  // The stateful shell

  class App {
    var config: Config
    var command: string
    var showInput: bool
    var focused: bool
    var trigger: int
    var timers: seq<Timer>

    function State(): Shell
      reads this
    {
      Shell(config, command, showInput, focused, trigger, timers)
    }

    constructor ()
      ensures State() == Start
    {
      config := InitialConfig;
      command := "";
      showInput := false;
      focused := false;
      trigger := 0;
      timers := [];
    }

    /** `activateMode`: `setConfig(prev => ({...prev, ...preset}))`. */
    method ActivateMode(m: ParticleMode)
      modifies this`config
      ensures State() == old(State()).(config := Commands.ActivateMode(old(config), m))
    {
      var p := Preset(m);
      var c := config;
      if p.particleCount.Some? { c := c.(particleCount := p.particleCount.value); }
      if p.baseSpeed.Some? { c := c.(baseSpeed := p.baseSpeed.value); }
      if p.glowIntensity.Some? { c := c.(glowIntensity := p.glowIntensity.value); }
      if p.particleSize.Some? { c := c.(particleSize := p.particleSize.value); }
      config := c.(mode := p.mode);
    }

    /** `triggerSupernova`, with `now` standing for `Date.now()`. */
    method TriggerSupernova(now: int)
      modifies this`config, this`trigger, this`timers
      ensures State() == TriggerStep(old(State()), now)
    {
      config := config.(particleCount := 4000, glowIntensity := 30);
      trigger := now;
      timers := timers + [Timer(now + GlowDelay, ResetGlow)];
    }

    method Run(a: Option<Action>, now: int)
      modifies this`config, this`trigger, this`timers
      ensures State() == Perform(old(State()), a, now)
    {
      match a {
        case None =>
        case Some(Activate(m)) => ActivateMode(m);
        case Some(Supernova) => TriggerSupernova(now);
      }
    }

    /** The command field's `onChange`. */
    method Edit(text: string)
      modifies this`command
      ensures State() == old(State()).(command := text)
    {
      command := text;
    }

    /** `handleCommandSubmit` at time `now`. */
    method Submit(now: int)
      modifies this`config, this`trigger, this`timers, this`command
      ensures State() == SubmitStep(old(State()), now)
    {
      Run(CommandAction(command), now);
      command := "";
    }

    /** `handleKeyDown` at time `now`. */
    method KeyDown(key: string, now: int)
      modifies this
      ensures State() == KeyStep(old(State()), key, now)
    {
      if focused {
        if key == "Escape" {
          focused := false;
          showInput := false;
        }
        return;
      }
      if key == "Enter" {
        showInput := true;
        timers := timers + [Timer(now + FocusDelay, FocusInput)];
        return;
      }
      Run(KeyAction(key), now);
    }

    /** The command field's `onFocus`. */
    method Focus()
      modifies this`focused, this`showInput
      ensures State() == old(State()).(focused := true, showInput := true)
    {
      focused, showInput := true, true;
    }

    /** The command field's `onBlur`. */
    method Blur()
      modifies this`focused, this`showInput
      ensures State() == old(State()).(focused := false, showInput := false)
    {
      focused, showInput := false, false;
    }

    /** Advancing the clock to `now`: runs the due callbacks in scheduling order and keeps the rest. */
    method Tick(now: int)
      modifies this`config, this`focused, this`showInput, this`timers
      ensures State() == TimerStep(old(State()), now)
    {
      var ts := timers;
      var rest := [];
      var i := 0;
      while i < |ts|
        invariant 0 <= i <= |ts| && timers == ts
        invariant rest == Later(ts[..i], now)
        invariant config == (if AnyDue(ts[..i], now, ResetGlow) then GlowReset(old(config)) else old(config))
        invariant focused == (old(focused) || AnyDue(ts[..i], now, FocusInput))
        invariant showInput == (old(showInput) || AnyDue(ts[..i], now, FocusInput))
      {
        var t := ts[i];
        LaterSnoc(ts[..i], t, now);
        AnyDueSnoc(ts[..i], t, now, ResetGlow);
        AnyDueSnoc(ts[..i], t, now, FocusInput);
        assert ts[..i + 1] == ts[..i] + [t];
        if t.due <= now {
          match t.job {
            case ResetGlow => config := config.(glowIntensity := 15);
            case FocusInput => focused, showInput := true, true;
          }
        } else {
          rest := rest + [t];
        }
        i := i + 1;
      }
      assert ts[..i] == ts;
      timers := rest;
    }
  }

  lemma {:induction false} LaterSnoc(ts: seq<Timer>, t: Timer, now: int)
    ensures Later(ts + [t], now) == Later(ts, now) + (if t.due > now then [t] else [])
  {
    if ts == [] {
      assert ts + [t] == [t];
    } else {
      assert (ts + [t])[1..] == ts[1..] + [t];
      LaterSnoc(ts[1..], t, now);
    }
  }

  lemma {:induction false} AnyDueSnoc(ts: seq<Timer>, t: Timer, now: int, job: Job)
    ensures AnyDue(ts + [t], now, job) == (AnyDue(ts, now, job) || (t.due <= now && t.job == job))
  {
    if ts == [] {
      assert ts + [t] == [t];
      assert [t][1..] == [];
    } else {
      assert (ts + [t])[1..] == ts[1..] + [t];
      AnyDueSnoc(ts[1..], t, now, job);
    }
  }
}
