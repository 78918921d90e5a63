# hypraway, modelled in Dafny

hypraway is a small daemon for Hyprland sessions. It runs the idle monitor `swayidle` with a
set of idle levels and switches between an AC profile and a battery profile whenever the
machine is plugged in or unplugged. This project models its core logic and proves
properties of it:

- `configuration.dfy`, module `Configuration`. This holds the configuration shapes (`Level`,
  `Levels`, `Config`), the profile selector, and the built-in default configuration as a
  constant. Timeouts and the check interval are Rust `u64`, modelled as the subset type
  `U64`.
- `decimal.dfy`, module `Decimal`. This is how a `u64` timeout is written into the command line:
  base 10, no sign, no leading zeros. It proves that the rendering reads back to the number.
- `idle_command.dfy`, module `IdleCommand`. This is the `swayidle` command line of a profile.
  `CommandSpec` is the reference definition: the program name followed by one clause per
  level whose timeout is positive, in level order. `BuildCommand` is the daemon's own loop,
  which grows the string clause by clause, and it is proved equal to `CommandSpec`.
- `power_source.dfy`, module `PowerSource`. This classifies the power source from the contents
  of the AC status file and the battery status file. `None` stands for a read that failed.
  `Trim` strips Unicode `White_Space`, as Rust's `str::trim` does.
- `supervisor.dfy`, module `Supervisor`. This is the run loop. Its effects are recorded as a
  trace of events:
  - `Spawn(command)` starts the idle monitor;
  - `Kill` stops the running monitor;
  - `Notify(message)` sends a desktop notification;
  - `Exit` is the successful return from the loop.

  `RunOf` is the reference behaviour: a left fold of `Step` over the power states the
  successive polls find. The class `Supervisor` holds:
  - `config`;
  - `lastBattery`;
  - the active profile `active`;
  - the running `child`;
  - the `trace`.

  Its methods `Poll`, `Monitor` and `Run` follow the nested loops of the daemon. `Run`
  is proved to produce exactly the trace, final state and child of `RunOf`. Lemmas about
  `RunOf` give the properties of every run:
  - the trace is well formed;
  - a kill separates any two spawns;
  - each spawn runs the profile of the power state at that moment;
  - steady polls are quiet;
  - the order of the events of a switch;
  - the behaviour with a zero check interval.

  The power state changes only when a poll finds a different state, so the spawned command
  lines alternate between the two profiles.

Time is not modelled. The daemon's infinite loop with its sleeps becomes a finite sequence of
readings, one per poll. When the readings run out, the model stops with the monitor still
running and records no `Exit`.

## Model

| member | source | states |
|---|---|---|
| `Configuration.DefaultConfigValues` | src/main.rs:46-83 | The default configuration checks every 5 seconds with notifications on. AC uses 600 s, 1200 s and a disabled third level; battery uses 300 s, 600 s and 900 s running `systemctl hibernate`. |
| `Decimal.NatToDecimal` | src/main.rs:140 | A timeout is written as a non-empty string of decimal digits. It starts with `0` exactly when the number is zero, and zero is written `"0"`. |
| `Decimal.DecimalRoundTrip` | src/main.rs:140 | Reading the decimal digits of a timeout back gives the timeout. |
| `Decimal.DecimalInjective` | src/main.rs:140 | Different timeouts are written differently. |
| `Decimal.DecimalExamples` | src/main.rs:58-80 | The default timeouts 300, 600, 900 and 1200 are written as those digits. |
| `IdleCommand.BuildCommand` | src/main.rs:131-142 | The command line built by pushing one clause per enabled level onto `"swayidle"` equals `CommandSpec`: the program name, then the clauses of the levels with a positive timeout, in level order. |
| `IdleCommand.CommandStartsWithProgram` | src/main.rs:131 | Every command line starts with `swayidle`. |
| `IdleCommand.CommandClauses` | src/main.rs:133-142 | The command line is `swayidle`, then the clause of level 1, level 2 and level 3, each present exactly when that level's timeout is positive. |
| `IdleCommand.AllDisabledIsBare` | src/main.rs:139-141 | A profile whose three timeouts are zero gives exactly `swayidle`. |
| `IdleCommand.ClauseLayout` | src/main.rs:140 | A clause is ` timeout `, the digits, a space, a quote, the command as it is, and a closing quote. |
| `IdleCommand.ClauseDetermined` | src/main.rs:140 | Equal clauses come from equal levels: both the timeout and the command can be read back from a clause. |
| `IdleCommand.DefaultAcCommand` | src/main.rs:58-68 | The default AC profile gives `swayidle` with two clauses: 600 seconds with the away notice, then 1200 seconds with `hyprlock`. The disabled third level adds nothing. |
| `IdleCommand.DefaultBatteryCommand` | src/main.rs:71-82 | The default battery profile gives `swayidle` with three clauses: 300 seconds with the away notice, 600 with `hyprlock`, and 900 with `systemctl hibernate`. |
| `PowerSource.TrimIsMiddle` | src/main.rs:92 | Trimming keeps one contiguous middle part of a file's contents. Everything removed before and after it is whitespace, and the kept part neither starts nor ends with whitespace. |
| `PowerSource.TrimPadded` | src/main.rs:99 | Any whitespace around a value that neither starts nor ends with whitespace is exactly what trimming removes; a file holding only whitespace trims to the empty string. |
| `PowerSource.TrimIdempotent` | src/main.rs:92 | Trimming twice gives the same result as trimming once. |
| `PowerSource.AcOnlineMeansAc` | src/main.rs:91-96 | An AC file that trims to `1` means AC, whatever the battery file holds. |
| `PowerSource.DischargingMeansBattery` | src/main.rs:98-103 | Battery is reported when the AC file is unreadable or does not trim to `1`, and the battery file trims to `Discharging`. |
| `PowerSource.OnBatteryExactly` | src/main.rs:90-114 | The machine is on battery if and only if the AC file does not report online and the battery file reports discharging. Every other case, including failed reads, is AC, and the result is never an error. |
| `PowerSource.PaddedValuesCount` | src/main.rs:91-103 | Values surrounded by whitespace, such as the newline that sysfs appends, still count as `1` or `Discharging`. |
| `PowerSource.SysfsExamples` | src/main.rs:90-114 | This gives the classification of typical sysfs contents. AC online means AC. AC offline with `Discharging` means battery. AC offline with `Charging` means AC. Two unreadable files mean AC. |
| `Supervisor.PollConclusion` | src/main.rs:154-197 | This is the reference run after one more poll, by its outcome. A change appends the poll's events and the respawn. A stop appends a kill and the exit, and then fixes the run for good. An unchanged poll appends nothing. |
| `Supervisor.StoppedStays` | src/main.rs:194-197 | After the run has returned, later polls change nothing. |
| `Supervisor.StartConsistent` | src/main.rs:117-147 | The run loop's invariant holds after the first spawn: the initial state's profile runs. |
| `Supervisor.StepConsistent` | src/main.rs:154-197 | Every poll keeps the invariant of the run. |
| `Supervisor.SwitchConsistent` | src/main.rs:156-191 | A poll that finds the power state changed keeps the invariant. The new child runs the new state's profile, and a kill precedes its spawn. |
| `Supervisor.StopConsistent` | src/main.rs:194-197 | A poll with an unchanged state and a zero interval appends a kill and the exit and stops the run, and it keeps the invariant, which allows a stop only with a zero interval. |
| `Supervisor.RunConsistent` | src/main.rs:130-198 | The invariant holds after any sequence of polls. |
| `Supervisor.RunGuarantees` | src/main.rs:116-200 | For every run, whatever the polls find: the trace is well formed (spawn only without a running child, kill only with one, nothing after `Exit`); it starts by spawning the initial profile; it exits only with a zero interval; otherwise the running child runs the final state's profile; and the k-th spawn runs the initial profile for even k and the other profile for odd k. |
| `Supervisor.KillSeparatesSpawns` | src/main.rs:144-191 | In a well-formed trace, a kill lies between any two spawns. |
| `Supervisor.RunPrefix` | src/main.rs:130-198 | Events are only ever appended: the trace after some of the polls is a prefix of the trace after all of them. |
| `Supervisor.SteadyPollsQuiet` | src/main.rs:151-198 | With a positive interval, polls that find the recorded power state change nothing: no kill, no spawn, no notification. |
| `Supervisor.SwitchEvents` | src/main.rs:156-191 | A poll that finds the power state changed records the new state. It appends, in this order, the notification when enabled, one kill, and one spawn of the new state's profile. |
| `Supervisor.ZeroIntervalStops` | src/main.rs:151-197 | With a zero interval, if the first poll finds the initial state, the whole trace is `[Spawn(c), Kill, Exit]`. |
| `Supervisor.ZeroIntervalSwitchesFirst` | src/main.rs:156-197 | With a zero interval, if the first poll finds the other state, the run switches and respawns instead of exiting, because the change test comes first. |
| `Supervisor.UnplugScenario` | src/main.rs:151-191 | Start on AC, unplug, then poll once more on battery, with a positive interval and notifications on. The trace is: the AC monitor, the battery notification, a kill, the battery monitor. The quiet poll adds nothing. |
| `Supervisor.DefaultUnplugScenario` | src/main.rs:46-83 | The same scenario under the built-in default configuration. |
| `Supervisor.UnplugReadings` | src/main.rs:90-103 | The scenario's readings classify as AC, battery, battery. AC is `1` with `Charging`; battery is `0` with `Discharging`. |
| `Supervisor.Supervisor.constructor` | src/main.rs:117-128 | The start of `run` classifies the power source once and selects the matching profile. No child runs yet, and the trace is empty. |
| `Supervisor.Supervisor.Poll` | src/main.rs:152-197 | One poll. On a change it records the new state, selects its profile, notifies when enabled, and kills the child. Otherwise, with a zero interval, it kills the child and exits. The outcome is `Outcome`, and the events appended are `PollEvents`. |
| `Supervisor.Supervisor.Monitor` | src/main.rs:151-198 | The inner polling loop. It polls until the power state changes, which gives the reference run with the respawn pending. Otherwise it polls until the run stops or the readings run out. |
| `Supervisor.Supervisor.Run` | src/main.rs:130-199 | The nested loops: spawn the active profile's command line, monitor, and respawn after every change. The trace, the final power state and the child equal those of the reference run `RunOf` over the classified readings. The active profile always matches the recorded power state. |

## Left out

- Loading the configuration (lines 29-88): the home directory, the existence test, writing the default file, reading it, and YAML parsing are file I/O and a foreign library. The default file's values are the constant `DefaultConfig`, and `Config` is taken as already parsed.
- Reading the status files (lines 91, 98): each poll's reading is given as data, with the contents of both files, or `None` where a read fails. The file paths are carried in `Config` but not used.
- The extra debug reads and every `println!` (lines 105-112, 120, 125, 149, 160, 175, 206): they do not affect any result.
- The `Result` of `is_on_battery`: no path returns an error, so `IsOnBattery` returns a plain `bool`, and the `?` after it (lines 117, 154) never fires.
- Spawning the monitor through `sh -c` (lines 144-147) becomes a `Spawn` event. A spawn failure, which would make `run` return an error, is not modelled. What the shell makes of the single-quoted command is not modelled either: the command is inserted without escaping.
- Sending notifications and killing the child (lines 161-170, 176-185, 190, 195) become `Notify` and `Kill` events. Their errors are ignored, as in the source.
- Sleeping for `check_interval` seconds and the async runtime (lines 152, 203): time is not modelled. Only whether the interval is zero matters.
- `main` (lines 203-209) only loads the configuration and calls `run`.
- Supervisor.Supervisor.Run: the source loops forever. The model takes a finite sequence of readings and returns, with the monitor still running, once they run out.
