/**
 * The supernova overlay: a three-phase state machine driven by trigger
 * tokens and by deadlines. Each `setTimeout` of the canvas is an explicit
 * pending deadline; `Run(m, now)` fires every deadline due by `now`,
 * earliest first, as the browser's timer queue would.
 */
module Supernova {
  import opened Types

  datatype Phase = Normal | Gathering | Exploding

  /** A `Burst` deadline gives every particle its explosion impulse; a `Settle` deadline ends the cycle. */
  datatype Kind = Burst | Settle

  datatype Deadline = Deadline(due: int, kind: Kind)

  /** The length of each of the two dwells, in milliseconds. */
  const Dwell := 800

  /**
   * The animation phase, the last token seen, and the deadlines still
   * pending, in the order they were scheduled.
   */
  datatype Machine = Machine(phase: Phase, last: int, pending: seq<Deadline>)

  const Initial := Machine(Normal, 0, [])

  /** A token starts a cycle when it is non-zero and differs from the last one seen. */
  predicate Accepts(m: Machine, token: int) {
    token != 0 && token != m.last
  }

  /** What the trigger effect does with a token that arrives at time `now`. */
  function Trigger(m: Machine, token: int, now: int): Machine {
    if Accepts(m, token) then Machine(Gathering, token, m.pending + [Deadline(now + Dwell, Burst)]) else m
  }

  /** A zero token or the last token again changes nothing; any other token starts gathering. */
  lemma TriggerGuard(m: Machine, token: int, now: int)
    ensures token == 0 || token == m.last ==> Trigger(m, token, now) == m
    ensures token != 0 && token != m.last ==>
      Trigger(m, token, now).phase == Gathering && Trigger(m, token, now).last == token
  {
  }

  /** Re-sending a token, at any later time, changes nothing. */
  lemma TriggerIdempotent(m: Machine, token: int, t0: int, t1: int)
    ensures Trigger(Trigger(m, token, t0), token, t1) == Trigger(m, token, t0)
  {
  }

  /** A new token never cancels a pending deadline: it appends exactly one burst. */
  lemma TriggerKeepsDeadlines(m: Machine, token: int, now: int)
    ensures var r := Trigger(m, token, now);
      |r.pending| >= |m.pending| && r.pending[..|m.pending|] == m.pending
    ensures Accepts(m, token) ==>
      Trigger(m, token, now).pending == m.pending + [Deadline(now + Dwell, Burst)]
  {
    var r := Trigger(m, token, now);
    if Accepts(m, token) {
      assert r.pending[..|m.pending|] == m.pending;
    }
  }

  // ---------------------------------------------------------------------
  // Firing deadlines

  function Cost(d: Deadline): nat {
    if d.kind == Burst then 2 else 1
  }

  /** Every burst still schedules one settle, so firing strictly lowers this weight. */
  function Weight(s: seq<Deadline>): nat {
    if s == [] then 0 else Weight(s[..|s| - 1]) + Cost(s[|s| - 1])
  }

  lemma {:induction false} WeightAppend(s: seq<Deadline>, t: seq<Deadline>)
    ensures Weight(s + t) == Weight(s) + Weight(t)
    decreases |t|
  {
    if t == [] {
      assert s + t == s;
    } else {
      var t' := t[..|t| - 1];
      assert (s + t)[..|s + t| - 1] == s + t';
      WeightAppend(s, t');
    }
  }

  /** The deadline that fires first among `s`: the smallest due time, the earliest scheduled on ties. */
  function Earliest(s: seq<Deadline>): (k: nat)
    requires |s| > 0
    ensures k < |s|
    ensures forall j :: 0 <= j < |s| ==> s[k].due <= s[j].due
    ensures forall j :: 0 <= j < k ==> s[j].due > s[k].due
  {
    if |s| == 1 then 0
    else
      var k := Earliest(s[..|s| - 1]);
      if s[|s| - 1].due < s[k].due then |s| - 1 else k
  }

  /** The position of the next deadline to fire by time `now`, if any is due. */
  function NextDue(s: seq<Deadline>, now: int): (r: Option<nat>)
    ensures r.Some? ==> r.value < |s| && s[r.value].due <= now
    ensures r.None? <==> forall j :: 0 <= j < |s| ==> s[j].due > now
  {
    if s == [] then None
    else
      var k := Earliest(s);
      if s[k].due <= now then Some(k) else None
  }

  function Remove(s: seq<Deadline>, k: nat): seq<Deadline>
    requires k < |s|
  {
    s[..k] + s[k + 1..]
  }

  /** Runs the callback of deadline `k` and takes it off the queue. */
  function Fire(m: Machine, k: nat): (r: Machine)
    requires k < |m.pending|
    ensures Weight(r.pending) < Weight(m.pending)
    ensures r.last == m.last
    ensures forall d :: d in m.pending && d != m.pending[k] ==> d in r.pending
    ensures forall d :: d in r.pending ==> d in m.pending || d == Deadline(m.pending[k].due + Dwell, Settle)
    ensures m.pending[k].kind == Burst ==> r.phase == Exploding && Deadline(m.pending[k].due + Dwell, Settle) in r.pending
    ensures m.pending[k].kind == Settle ==> r.phase == Normal
  {
    var d := m.pending[k];
    var rest := Remove(m.pending, k);
    assert m.pending == m.pending[..k] + [d] + m.pending[k + 1..];
    WeightAppend(m.pending[..k] + [d], m.pending[k + 1..]);
    WeightAppend(m.pending[..k], [d]);
    WeightAppend(m.pending[..k], m.pending[k + 1..]);
    assert Weight([d]) == Cost(d) by {
      assert [d][..0] == [];
    }
    match d.kind
    case Burst =>
      var s := Deadline(d.due + Dwell, Settle);
      WeightAppend(rest, [s]);
      assert Weight([s]) == 1 by {
        assert [s][..0] == [];
      }
      Machine(Exploding, m.last, rest + [s])
    case Settle =>
      Machine(Normal, m.last, rest)
  }

  /** The outcome of advancing the clock: the new machine, and whether any burst fired. */
  datatype Outcome = Outcome(machine: Machine, burst: bool)

  /** Fires every deadline due by `now`, earliest first, including those that firing schedules. */
  function Run(m: Machine, now: int): (o: Outcome)
    decreases Weight(m.pending)
    ensures forall j :: 0 <= j < |o.machine.pending| ==> o.machine.pending[j].due > now
    ensures o.machine.last == m.last
    ensures forall d :: d in m.pending && d.due > now ==> d in o.machine.pending
  {
    match NextDue(m.pending, now)
    case None => Outcome(m, false)
    case Some(k) =>
      var o := Run(Fire(m, k), now);
      Outcome(o.machine, o.burst || m.pending[k].kind == Burst)
  }

  /** When deadline `k` is the next due, advancing the clock fires it first. */
  lemma RunFiresNext(m: Machine, now: int, k: nat)
    requires NextDue(m.pending, now) == Some(k)
    ensures var o := Run(Fire(m, k), now);
      Run(m, now) == Outcome(o.machine, o.burst || m.pending[k].kind == Burst)
  {
  }

  /** With nothing due, advancing the clock changes nothing. */
  lemma RunIdle(m: Machine, now: int)
    requires forall j :: 0 <= j < |m.pending| ==> m.pending[j].due > now
    ensures Run(m, now) == Outcome(m, false)
  {
  }

  /**
   * Advancing the clock to `t1` and then to `t2` is the same as advancing
   * it to `t2` at once: the outcome does not depend on the frame rate.
   */
  lemma {:induction false} RunComposes(m: Machine, t1: int, t2: int)
    requires t1 <= t2
    ensures var a := Run(m, t1); var b := Run(a.machine, t2);
      Run(m, t2) == Outcome(b.machine, a.burst || b.burst)
    decreases Weight(m.pending)
  {
    match NextDue(m.pending, t1)
    case None =>
    case Some(k) =>
      assert NextDue(m.pending, t2) == Some(k);
      RunComposes(Fire(m, k), t1, t2);
  }

  // ---------------------------------------------------------------------
  // Whole cycles

  /** The burst deadline of a token accepted at rest at `t0` is the only pending one. */
  lemma TriggerFromRest(m: Machine, token: int, t0: int)
    requires m.pending == [] && Accepts(m, token)
    ensures Trigger(m, token, t0) == Machine(Gathering, token, [Deadline(t0 + Dwell, Burst)])
  {
  }

  /** The burst, fired at rest, leaves only its settle deadline pending. */
  lemma BurstFromRest(token: int, t0: int, now: int)
    requires t0 + Dwell <= now
    ensures var m1 := Machine(Gathering, token, [Deadline(t0 + Dwell, Burst)]);
      NextDue(m1.pending, now) == Some(0)
      && Fire(m1, 0) == Machine(Exploding, token, [Deadline(t0 + 2 * Dwell, Settle)])
  {
    var m1 := Machine(Gathering, token, [Deadline(t0 + Dwell, Burst)]);
    assert Remove(m1.pending, 0) == [];
  }

  /** The settle deadline, fired, leaves nothing pending. */
  lemma SettleFromRest(token: int, t0: int, now: int)
    requires t0 + 2 * Dwell <= now
    ensures var m2 := Machine(Exploding, token, [Deadline(t0 + 2 * Dwell, Settle)]);
      NextDue(m2.pending, now) == Some(0) && Fire(m2, 0) == Machine(Normal, token, [])
  {
    var m2 := Machine(Exploding, token, [Deadline(t0 + 2 * Dwell, Settle)]);
    assert Remove(m2.pending, 0) == [];
  }

  /** One accepted token from rest: GATHERING for 800 ms, EXPLODING for 800 ms, then NORMAL. */
  lemma OneCycle(m: Machine, token: int, t0: int, now: int)
    requires m.pending == [] && Accepts(m, token)
    ensures var o := Run(Trigger(m, token, t0), now);
      && (now < t0 + Dwell ==> o == Outcome(Machine(Gathering, token, [Deadline(t0 + Dwell, Burst)]), false))
      && (t0 + Dwell <= now < t0 + 2 * Dwell ==>
            o == Outcome(Machine(Exploding, token, [Deadline(t0 + 2 * Dwell, Settle)]), true))
      && (t0 + 2 * Dwell <= now ==> o == Outcome(Machine(Normal, token, []), true))
  {
    TriggerFromRest(m, token, t0);
    var m1 := Machine(Gathering, token, [Deadline(t0 + Dwell, Burst)]);
    if now < t0 + Dwell {
      RunIdle(m1, now);
    } else {
      BurstFromRest(token, t0, now);
      RunFiresNext(m1, now, 0);
      var m2 := Machine(Exploding, token, [Deadline(t0 + 2 * Dwell, Settle)]);
      if now < t0 + 2 * Dwell {
        RunIdle(m2, now);
      } else {
        SettleFromRest(token, t0, now);
        RunFiresNext(m2, now, 0);
        RunIdle(Machine(Normal, token, []), now);
      }
    }
  }

  /**
   * A second token during GATHERING re-enters GATHERING but cancels nothing:
   * the first token's burst still fires at its own deadline, 800 ms after the
   * first token rather than after the second.
   */
  lemma SecondTokenWhileGathering(m: Machine, a: int, b: int, t0: int, t1: int)
    requires m.pending == [] && Accepts(m, a) && b != 0 && b != a
    requires t0 < t1 < t0 + Dwell
    ensures var m2 := Trigger(Trigger(m, a, t0), b, t1);
      && m2 == Machine(Gathering, b, [Deadline(t0 + Dwell, Burst), Deadline(t1 + Dwell, Burst)])
      && Run(m2, t0 + Dwell) ==
           Outcome(Machine(Exploding, b, [Deadline(t1 + Dwell, Burst), Deadline(t0 + 2 * Dwell, Settle)]), true)
  {
    var m2 := Trigger(Trigger(m, a, t0), b, t1);
    var now := t0 + Dwell;
    assert Earliest(m2.pending) == 0;
    var m3 := Fire(m2, 0);
    assert m3.pending == [Deadline(t1 + Dwell, Burst), Deadline(t0 + 2 * Dwell, Settle)];
    RunIdle(m3, now);
  }

  /**
   * A second token during EXPLODING re-enters GATHERING, and the first
   * token's settle deadline then ends that gathering early: the phase is
   * NORMAL again while the second burst is still pending.
   */
  lemma SecondTokenWhileExploding(m: Machine, a: int, b: int, t0: int, t1: int)
    requires m.pending == [] && Accepts(m, a) && b != 0 && b != a
    requires t0 + Dwell < t1 < t0 + 2 * Dwell
    ensures var m1 := Run(Trigger(m, a, t0), t1).machine;
      var m2 := Trigger(m1, b, t1);
      && m2 == Machine(Gathering, b, [Deadline(t0 + 2 * Dwell, Settle), Deadline(t1 + Dwell, Burst)])
      && Run(m2, t0 + 2 * Dwell) == Outcome(Machine(Normal, b, [Deadline(t1 + Dwell, Burst)]), false)
  {
    OneCycle(m, a, t0, t1);
    var m1 := Run(Trigger(m, a, t0), t1).machine;
    var m2 := Trigger(m1, b, t1);
    var now := t0 + 2 * Dwell;
    assert Earliest(m2.pending) == 0;
    var m3 := Fire(m2, 0);
    assert m3.pending == [Deadline(t1 + Dwell, Burst)];
    RunIdle(m3, now);
  }
}
