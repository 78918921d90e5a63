/** The supervisor: it runs the idle monitor for the current power profile and,
    polling the power source, kills and respawns it whenever the source changes.
    Its effects are recorded as a trace of events. */
module Supervisor {
  import opened Configuration
  import opened IdleCommand
  import opened PowerSource
  import opened Seqs

  /** An effect on the outside world: start the idle monitor with a shell command line,
      kill the running one, send a desktop notification, leave the run loop successfully. */
  datatype Event = Spawn(command: string) | Kill | Notify(message: string) | Exit

  /** The notification message announcing a switch to the given power state. */
  function SwitchMessage(onBattery: bool): string
  {
    if onBattery then "Switched to Battery Power Mode" else "Switched to AC Power Mode"
  }

  /** The notifications sent on a switch to `onBattery`: one when they are enabled, none otherwise. */
  function SwitchNotice(cfg: Config, onBattery: bool): seq<Event>
  {
    if cfg.enableNotifications then [Notify(SwitchMessage(onBattery))] else []
  }

  /** The command line for the profile of a power state. */
  function ProfileCommand(cfg: Config, onBattery: bool): string
  {
    CommandSpec(SelectProfile(cfg, onBattery))
  }

  /** How one poll ends: the power state changed (switch and respawn), it did not
      and the interval is zero (stop), or it did not (keep polling). The change test
      comes first. */
  datatype PollOutcome = Switched | Stopped | Unchanged

  function Outcome(cfg: Config, last: bool, now: bool): PollOutcome
  {
    if now != last then Switched
    else if cfg.checkInterval == 0 then Stopped
    else Unchanged
  }

  /** The events of one poll that finds state `now` while the monitor runs for `last`,
      up to and not including the respawn. */
  function PollEvents(cfg: Config, last: bool, now: bool): seq<Event>
  {
    match Outcome(cfg, last, now)
    case Switched => SwitchNotice(cfg, now) + [Kill]
    case Stopped => [Kill, Exit]
    case Unchanged => []
  }

  /** Reference state of a run: the recorded power state, the events so far, and
      whether the run has returned. */
  datatype RunState = RunState(last: bool, events: seq<Event>, stopped: bool)

  /** The state right after the first spawn. */
  function Start(cfg: Config, initial: bool): RunState
  {
    RunState(initial, [Spawn(ProfileCommand(cfg, initial))], false)
  }

  /** One poll finding power state `now`; a stopped run ignores further polls. */
  function Step(cfg: Config, s: RunState, now: bool): RunState
  {
    if s.stopped then s
    else match Outcome(cfg, s.last, now)
      case Switched =>
        RunState(now, s.events + PollEvents(cfg, s.last, now) + [Spawn(ProfileCommand(cfg, now))], false)
      case Stopped => RunState(s.last, s.events + PollEvents(cfg, s.last, now), true)
      case Unchanged => s
  }

  /** The polls finding `states`, one after the other. */
  function Steps(cfg: Config, s: RunState, states: seq<bool>): RunState
  {
    if states == [] then s else Step(cfg, Steps(cfg, s, Front(states)), Last(states))
  }

  /** Reference behaviour of a whole run from power state `initial`. */
  function RunOf(cfg: Config, initial: bool, states: seq<bool>): RunState
  {
    Steps(cfg, Start(cfg, initial), states)
  }

  /** The power states successive readings classify to. */
  function Classify(readings: seq<Reading>): seq<bool>
  {
    seq(|readings|, k requires 0 <= k < |readings| => IsOnBattery(readings[k]))
  }

  /** The polls of the first `i` states, and one more. */
  lemma StepsPrefix(cfg: Config, s: RunState, states: seq<bool>, i: nat)
    requires i < |states|
    ensures Steps(cfg, s, states[..i + 1]) == Step(cfg, Steps(cfg, s, states[..i]), states[i])
  {
    assert Front(states[..i + 1]) == states[..i];
  }

  /** The reference run after the poll of the `i`-th power state, with the events and the
      power state that poll leaves behind. */
  lemma PollConclusion(cfg: Config, initial: bool, states: seq<bool>, i: nat, last: bool, t: seq<Event>,
                       outcome: PollOutcome)
    requires i < |states| && RunOf(cfg, initial, states[..i]) == RunState(last, t, false)
    requires outcome == Outcome(cfg, last, states[i])
    ensures var now, u := states[i], t + PollEvents(cfg, last, states[i]);
      match outcome
      case Switched =>
        RunOf(cfg, initial, states[..i + 1]) == RunState(now, u + [Spawn(ProfileCommand(cfg, now))], false)
      case Stopped => RunOf(cfg, initial, states) == RunState(now, u, true)
      case Unchanged => RunOf(cfg, initial, states[..i + 1]) == RunState(now, u, false)
  {
    StepsPrefix(cfg, Start(cfg, initial), states, i);
    match outcome
    case Switched =>
    case Stopped => StoppedStays(cfg, Start(cfg, initial), states, i + 1);
    case Unchanged => assert t + [] == t;
  }

  /** Once stopped, a run stays as it is, whatever later polls find. */
  lemma {:induction false} StoppedStays(cfg: Config, s: RunState, states: seq<bool>, i: nat)
    requires i <= |states| && Steps(cfg, s, states[..i]).stopped
    ensures Steps(cfg, s, states) == Steps(cfg, s, states[..i])
  {
    if i == |states| {
      assert states[..i] == states;
    } else {
      assert Front(states)[..i] == states[..i];
      StoppedStays(cfg, s, Front(states), i);
    }
  }

  // ---------------------------------------------------------------------------
  // Properties of the trace

  /** Whether a child runs after the events `t`. */
  function Live(t: seq<Event>): bool
  {
    if t == [] then false
    else match Last(t)
      case Spawn(_) => true
      case Kill => false
      case _ => Live(Front(t))
  }

  /** Whether the events `t` end the run. */
  predicate Ended(t: seq<Event>)
  {
    t != [] && Last(t) == Exit
  }

  /** Whether event `e` may follow the events `t`: nothing follows an exit, a spawn needs
      no child running, a kill needs one, and an exit happens only with none running. */
  predicate Allowed(t: seq<Event>, e: Event)
  {
    && !Ended(t)
    && match e
       case Spawn(_) => !Live(t)
       case Kill => Live(t)
       case Exit => !Live(t)
       case Notify(_) => true
  }

  /** A trace every event of which is allowed after the ones before it. */
  predicate WellFormed(t: seq<Event>)
  {
    t == [] || (WellFormed(Front(t)) && Allowed(Front(t), Last(t)))
  }

  /** The command lines of the spawns in `t`, in order. */
  function Spawned(t: seq<Event>): seq<string>
  {
    if t == [] then []
    else Spawned(Front(t)) + if Last(t).Spawn? then [Last(t).command] else []
  }

  /** Appending one event: how liveness, well-formedness and the spawns extend. */
  lemma Snoc(t: seq<Event>, e: Event)
    ensures Live(t + [e]) == match e case Spawn(_) => true case Kill => false case _ => Live(t)
    ensures WellFormed(t + [e]) == (WellFormed(t) && Allowed(t, e))
    ensures Ended(t + [e]) == (e == Exit)
    ensures Spawned(t + [e]) == Spawned(t) + if e.Spawn? then [e.command] else []
  {
    FrontLastSnoc(t, e);
  }

  /** The invariant of a reference run from power state `initial`: the trace is well formed;
      a child runs exactly while the run has not stopped, and it runs the command line of
      the current power state's profile; a stop happened only with a zero interval and
      ended the trace; the spawned command lines alternate between the initial state's
      profile and the other one, the current state's being the last. */
  ghost predicate Consistent(cfg: Config, initial: bool, s: RunState)
  {
    Shaped(cfg, s) && Alternates(cfg, initial, s.last, Spawned(s.events))
  }

  /** The trace part of the invariant. */
  ghost predicate Shaped(cfg: Config, s: RunState)
  {
    && s.events != []
    && WellFormed(s.events)
    && Live(s.events) == !s.stopped
    && (!s.stopped ==> Last(s.events) == Spawn(ProfileCommand(cfg, s.last)))
    && (s.stopped ==> Ended(s.events) && cfg.checkInterval == 0)
  }

  /** The spawn part of the invariant, for the spawned command lines `cs` and the current
      power state `last`. */
  ghost predicate Alternates(cfg: Config, initial: bool, last: bool, cs: seq<string>)
  {
    && |cs| > 0
    && (last == initial <==> |cs| % 2 == 1)
    && Alternating(cfg, initial, cs)
  }

  /** The `k`-th command line spawned is the initial state's profile for even `k` and the
      other state's for odd `k`. */
  ghost predicate Alternating(cfg: Config, initial: bool, cs: seq<string>)
  {
    forall k :: 0 <= k < |cs| ==> cs[k] == ProfileCommand(cfg, if k % 2 == 0 then initial else !initial)
  }

  lemma AlternatingSnoc(cfg: Config, initial: bool, cs: seq<string>, c: string)
    requires Alternating(cfg, initial, cs)
    requires c == ProfileCommand(cfg, if |cs| % 2 == 0 then initial else !initial)
    ensures Alternating(cfg, initial, cs + [c])
  {
  }

  lemma StartConsistent(cfg: Config, initial: bool)
    ensures Consistent(cfg, initial, Start(cfg, initial))
  {
    var e := Spawn(ProfileCommand(cfg, initial));
    assert [] + [e] == [e];
    Snoc([], e);
  }

  /** Every poll keeps the invariant. */
  lemma StepConsistent(cfg: Config, initial: bool, s: RunState, now: bool)
    requires Consistent(cfg, initial, s)
    ensures Consistent(cfg, initial, Step(cfg, s, now))
  {
    if !s.stopped {
      match Outcome(cfg, s.last, now)
      case Switched => SwitchConsistent(cfg, initial, s, now);
      case Stopped => StopConsistent(cfg, initial, s, now);
      case Unchanged =>
    }
  }

  lemma SwitchConsistent(cfg: Config, initial: bool, s: RunState, now: bool)
    requires Consistent(cfg, initial, s) && !s.stopped && now != s.last
    ensures Consistent(cfg, initial, Step(cfg, s, now))
  {
    var e, n, c := s.events, SwitchNotice(cfg, now), ProfileCommand(cfg, now);
    var u := e + n + [Kill] + [Spawn(c)];
    assert Step(cfg, s, now) == RunState(now, u, false) by {
      assert PollEvents(cfg, s.last, now) == n + [Kill];
      ConcatAssoc(e, n, [Kill]);
    }
    NoticeKeeps(e, n);
    Respawn(e + n, c);
    assert Shaped(cfg, RunState(now, u, false));
    AlternatesSnoc(cfg, initial, s.last, Spawned(e), c);
  }

  /** Spawning the profile of the other power state keeps the spawns alternating. */
  lemma AlternatesSnoc(cfg: Config, initial: bool, last: bool, cs: seq<string>, c: string)
    requires Alternates(cfg, initial, last, cs) && c == ProfileCommand(cfg, !last)
    ensures Alternates(cfg, initial, !last, cs + [c])
  {
    AlternatingSnoc(cfg, initial, cs, c);
  }

  /** A notification changes nothing but the trace. */
  lemma NoticeKeeps(e: seq<Event>, n: seq<Event>)
    requires WellFormed(e) && Live(e) && !Ended(e)
    requires n == [] || (|n| == 1 && n[0].Notify?)
    ensures WellFormed(e + n) && Live(e + n) && !Ended(e + n) && Spawned(e + n) == Spawned(e)
  {
    if n == [] {
      assert e + n == e;
    } else {
      assert n == [n[0]];
      Snoc(e, n[0]);
    }
  }

  /** Killing a running child and spawning a new one. */
  lemma Respawn(t: seq<Event>, c: string)
    requires WellFormed(t) && Live(t) && !Ended(t)
    ensures var u := t + [Kill] + [Spawn(c)];
      && WellFormed(u) && Live(u) && u != [] && Last(u) == Spawn(c) && !Ended(u)
      && Spawned(u) == Spawned(t) + [c]
  {
    Snoc(t, Kill);
    Snoc(t + [Kill], Spawn(c));
    FrontLastSnoc(t + [Kill], Spawn(c));
  }

  lemma StopConsistent(cfg: Config, initial: bool, s: RunState, now: bool)
    requires Consistent(cfg, initial, s) && !s.stopped && now == s.last && cfg.checkInterval == 0
    ensures Step(cfg, s, now) == RunState(s.last, s.events + [Kill, Exit], true)
    ensures Consistent(cfg, initial, Step(cfg, s, now))
  {
    var e := s.events;
    assert Step(cfg, s, now).events == e + [Kill] + [Exit];
    Snoc(e, Kill);
    Snoc(e + [Kill], Exit);
    FrontLastSnoc(e + [Kill], Exit);
  }

  /** The invariant holds after any sequence of polls. */
  lemma {:induction false} RunConsistent(cfg: Config, initial: bool, states: seq<bool>)
    ensures Consistent(cfg, initial, RunOf(cfg, initial, states))
  {
    if states == [] {
      StartConsistent(cfg, initial);
    } else {
      RunConsistent(cfg, initial, Front(states));
      StepConsistent(cfg, initial, RunOf(cfg, initial, Front(states)), Last(states));
    }
  }

  /** What a whole run guarantees, whatever the polls find: the trace is well formed, so a
      new child is never spawned before the previous one is killed and nothing follows an
      exit; the first event spawns the initial profile; the run exits only with a zero
      interval; otherwise the child left running runs the profile of the final power
      state; and the spawned command lines alternate between the two profiles. */
  lemma RunGuarantees(cfg: Config, initial: bool, states: seq<bool>)
    ensures var r := RunOf(cfg, initial, states);
      && WellFormed(r.events) && r.events != [] && r.events[0] == Spawn(ProfileCommand(cfg, initial))
      && (Ended(r.events) ==> cfg.checkInterval == 0)
      && (!r.stopped ==> Live(r.events) && Last(r.events) == Spawn(ProfileCommand(cfg, r.last)))
      && Alternating(cfg, initial, Spawned(r.events))
  {
    RunConsistent(cfg, initial, states);
    RunPrefix(cfg, initial, states, 0);
    assert states[..0] == [];
  }

  /** In a well-formed trace a kill separates any two spawns: a second child is never
      started while the first one still runs. */
  lemma {:induction false} KillSeparatesSpawns(t: seq<Event>, i: nat, j: nat)
    requires WellFormed(t) && i < j < |t| && t[i].Spawn? && t[j].Spawn?
    ensures exists k :: i < k < j && t[k] == Kill
  {
    var f := Front(t);
    if j < |t| - 1 {
      assert f[i] == t[i] && f[j] == t[j];
      KillSeparatesSpawns(f, i, j);
      var k :| i < k < j && f[k] == Kill;
      assert t[k] == Kill;
    } else {
      assert f[i] == t[i];
      KilledSince(f, i);
      var k :| i < k < |f| && f[k] == Kill;
      assert t[k] == Kill;
    }
  }

  /** A child spawned at position `i` no longer runs at the end only if a kill followed. */
  lemma {:induction false} KilledSince(t: seq<Event>, i: nat)
    requires i < |t| && t[i].Spawn? && !Live(t)
    ensures exists k :: i < k < |t| && t[k] == Kill
  {
    var f := Front(t);
    if Last(t) == Kill {
      assert t[|t| - 1] == Kill;
    } else {
      assert f[i] == t[i];
      KilledSince(f, i);
      var k :| i < k < |f| && f[k] == Kill;
      assert t[k] == Kill;
    }
  }

  /** Events are only ever appended: the trace after the first `i` polls is a prefix of the
      trace after all of them. */
  lemma {:induction false} RunPrefix(cfg: Config, initial: bool, states: seq<bool>, i: nat)
    requires i <= |states|
    ensures var t, u := RunOf(cfg, initial, states[..i]).events, RunOf(cfg, initial, states).events;
      |t| <= |u| && u[..|t|] == t
  {
    if i == |states| {
      assert states[..i] == states;
    } else {
      assert Front(states)[..i] == states[..i];
      RunPrefix(cfg, initial, Front(states), i);
      StepExtends(cfg, RunOf(cfg, initial, Front(states)), Last(states));
    }
  }

  /** One poll only appends events. */
  lemma StepExtends(cfg: Config, s: RunState, now: bool)
    ensures var u := Step(cfg, s, now).events; |s.events| <= |u| && u[..|s.events|] == s.events
  {
  }

  /** Polls that find the power state unchanged, with a positive interval, change nothing:
      no kill, no spawn, no notification. */
  lemma {:induction false} SteadyPollsQuiet(cfg: Config, s: RunState, states: seq<bool>)
    requires cfg.checkInterval > 0
    requires forall k :: 0 <= k < |states| ==> states[k] == s.last
    ensures Steps(cfg, s, states) == s
  {
    if states != [] {
      SteadyPollsQuiet(cfg, s, Front(states));
    }
  }

  /** A poll that finds the state changed records the new state and appends, in this order,
      the notification when enabled, one kill and one spawn of the new state's profile. */
  lemma SwitchEvents(cfg: Config, s: RunState, now: bool)
    requires !s.stopped && now != s.last
    ensures var r := Step(cfg, s, now);
      && r.last == now && !r.stopped
      && r.events == s.events + SwitchNotice(cfg, now) + [Kill, Spawn(ProfileCommand(cfg, now))]
  {
    var e, n, c := s.events, SwitchNotice(cfg, now), ProfileCommand(cfg, now);
    ConcatAssoc(e + n, [Kill], [Spawn(c)]);
  }

  /** With a zero interval, a first poll that finds the state unchanged ends the run
      after one spawn: kill, then exit. */
  lemma ZeroIntervalStops(cfg: Config, initial: bool, states: seq<bool>)
    requires cfg.checkInterval == 0 && states != [] && states[0] == initial
    ensures RunOf(cfg, initial, states).events == [Spawn(ProfileCommand(cfg, initial)), Kill, Exit]
    ensures RunOf(cfg, initial, states).stopped
  {
    StepsPrefix(cfg, Start(cfg, initial), states, 0);
    assert states[..0] == [];
    StoppedStays(cfg, Start(cfg, initial), states, 1);
  }

  /** With a zero interval, a first poll that finds the state changed switches and
      respawns instead of exiting, because the change test comes first. */
  lemma ZeroIntervalSwitchesFirst(cfg: Config, initial: bool, now: bool)
    requires cfg.checkInterval == 0 && now != initial
    ensures var r := RunOf(cfg, initial, [now]);
      && !r.stopped && r.last == now
      && r.events == [Spawn(ProfileCommand(cfg, initial))] + SwitchNotice(cfg, now)
         + [Kill, Spawn(ProfileCommand(cfg, now))]
  {
    StepsPrefix(cfg, Start(cfg, initial), [now], 0);
    assert [now][..0] == [] && [now][..1] == [now];
    SwitchEvents(cfg, Start(cfg, initial), now);
  }

  /** Started on AC, unplugged, then polled once more on battery, with a positive interval
      and notifications on: AC monitor, notification, kill, battery monitor, and nothing on
      the quiet poll. */
  lemma UnplugScenario(cfg: Config)
    requires cfg.checkInterval > 0 && cfg.enableNotifications
    ensures RunOf(cfg, false, [true, true]).events
      == [Spawn(ProfileCommand(cfg, false)), Notify("Switched to Battery Power Mode"),
          Kill, Spawn(ProfileCommand(cfg, true))]
  {
    var s0 := Start(cfg, false);
    StepsPrefix(cfg, s0, [true, true], 0);
    StepsPrefix(cfg, s0, [true, true], 1);
    assert [true, true][..0] == [] && [true, true][..2] == [true, true];
    SwitchEvents(cfg, s0, true);
  }

  /** That scenario under the default configuration. */
  lemma DefaultUnplugScenario()
    ensures RunOf(DefaultConfig, false, [true, true]).events
      == [Spawn(ProfileCommand(DefaultConfig, false)), Notify("Switched to Battery Power Mode"),
          Kill, Spawn(ProfileCommand(DefaultConfig, true))]
  {
    DefaultConfigValues();
    UnplugScenario(DefaultConfig);
  }

  /** The readings of that scenario as the default configuration's sysfs files give them:
      the AC adapter online and the battery charging, then unplugged with the battery
      discharging, twice. */
  lemma UnplugReadings()
    ensures Classify([Reading(Some("1\n"), Some("Charging\n")),
                      Reading(Some("0\n"), Some("Discharging\n")),
                      Reading(Some("0\n"), Some("Discharging\n"))]) == [false, true, true]
  {
    SysfsExamples();
    var c := Classify([Reading(Some("1\n"), Some("Charging\n")),
                       Reading(Some("0\n"), Some("Discharging\n")),
                       Reading(Some("0\n"), Some("Discharging\n"))]);
    assert c[0] == false && c[1] == true && c[2] == true;
  }

  // ---------------------------------------------------------------------------
  // The daemon's run loop

  /** The run loop of the daemon, as a state machine over the power state, the active
      profile and the running child; `trace` records its effects. */
  class Supervisor {
    const config: Config
    var lastBattery: bool
    var active: Levels
    /** The command line of the running child, `None` when no child runs. */
    var child: Option<string>
    var trace: seq<Event>

    /** The active profile is the one for the recorded power state, and a running child
        runs that profile's command line. */
    ghost predicate Valid()
      reads this
    {
      && active == SelectProfile(config, lastBattery)
      && (child.Some? ==> child.value == CommandSpec(active))
    }

    /** The start of a run: classify the power source once and select its profile. */
    constructor (cfg: Config, initial: Reading)
      ensures Valid()
      ensures config == cfg && lastBattery == IsOnBattery(initial)
      ensures active == SelectProfile(cfg, lastBattery)
      ensures child == None && trace == []
    {
      config := cfg;
      var onBattery := IsOnBattery(initial);
      lastBattery := onBattery;
      active := if onBattery then cfg.battery else cfg.ac;
      child := None;
      trace := [];
    }

    /** One poll, the body of the polling loop: classify the reading; if the power state
        changed, record it, switch to the matching profile, notify when enabled and kill
        the child; otherwise, with a zero interval, kill the child and stop. */
    method Poll(reading: Reading) returns (outcome: PollOutcome)
      requires Valid() && child == Some(CommandSpec(active))
      modifies this
      ensures Valid()
      ensures var now := IsOnBattery(reading);
        && outcome == Outcome(config, old(lastBattery), now)
        && lastBattery == now
        && trace == old(trace) + PollEvents(config, old(lastBattery), now)
        && child == if outcome == Unchanged then old(child) else None
    {
      var current := IsOnBattery(reading);
      if current != lastBattery {
        lastBattery := current;
        if current {
          if config.enableNotifications {
            trace := trace + [Notify("Switched to Battery Power Mode")];
          }
          active := config.battery;
        } else {
          if config.enableNotifications {
            trace := trace + [Notify("Switched to AC Power Mode")];
          }
          active := config.ac;
        }
        ConcatAssoc(old(trace), SwitchNotice(config, current), [Kill]);
        trace := trace + [Kill];
        child := None;
        return Switched;
      }
      if config.checkInterval == 0 {
        trace := trace + [Kill];
        child := None;
        trace := trace + [Exit];
        return Stopped;
      }
      return Unchanged;
    }

    /** Where the polling loop left the run after the first `i` of the power states: */
    ghost predicate Reached(initial: bool, states: seq<bool>, i: nat, outcome: PollOutcome)
      requires i <= |states|
      reads this
    {
      match outcome
      // switched, with the respawn still to come;
      case Switched => child == None
        && RunOf(config, initial, states[..i]) == RunState(lastBattery, trace + [Spawn(CommandSpec(active))], false)
      // stopped, for good;
      case Stopped => child == None && RunOf(config, initial, states) == RunState(lastBattery, trace, true)
      // or still running when the power states ran out.
      case Unchanged => i == |states| && child.Some? && RunOf(config, initial, states) == RunState(lastBattery, trace, false)
    }

    /** The polling loop while a monitor runs, from the `i0`-th reading on: poll until
        the power state changes, the run stops, or the readings run out. `initial` is the
        power state the run started from. */
    method Monitor(readings: seq<Reading>, i0: nat, ghost initial: bool) returns (i: nat, outcome: PollOutcome)
      requires Valid() && child.Some? && i0 <= |readings|
      requires RunOf(config, initial, Classify(readings)[..i0]) == RunState(lastBattery, trace, false)
      modifies this
      ensures Valid() && i0 <= i <= |readings| && Reached(initial, Classify(readings), i, outcome)
      ensures outcome == Switched ==> i0 < i
    {
      ghost var states := Classify(readings);
      i := i0;
      while true
        invariant i0 <= i <= |readings|
        invariant Valid() && child.Some?
        invariant RunOf(config, initial, states[..i]) == RunState(lastBattery, trace, false)
        decreases |readings| - i
      {
        if i == |readings| {
          assert states[..i] == states;
          return i, Unchanged;
        }
        ghost var last, t := lastBattery, trace;
        assert IsOnBattery(readings[i]) == states[i];
        outcome := Poll(readings[i]);
        PollConclusion(config, initial, states, i, last, t, outcome);
        i := i + 1;
        if outcome != Unchanged {
          return;
        }
      }
    }

    /** The run loop over the readings of successive polls: spawn the monitor for the active
        profile, then poll; a switch goes back to spawning, a stop ends the run. When the
        readings run out the monitor is left running. */
    method Run(readings: seq<Reading>)
      requires Valid() && child == None && trace == []
      modifies this
      ensures Valid()
      ensures var r := RunOf(config, old(lastBattery), Classify(readings));
        && trace == r.events && lastBattery == r.last
        && child == if r.stopped then None else Some(CommandSpec(active))
    {
      ghost var initial := lastBattery;
      var i := 0;
      while true
        invariant 0 <= i <= |readings|
        invariant Valid() && child == None
        invariant RunOf(config, initial, Classify(readings)[..i])
          == RunState(lastBattery, trace + [Spawn(CommandSpec(active))], false)
        decreases |readings| - i
      {
        var command := BuildCommand(active);
        trace := trace + [Spawn(command)];
        child := Some(command);
        var outcome;
        i, outcome := Monitor(readings, i, initial);
        if outcome != Switched {
          return;
        }
      }
    }
  }
}
