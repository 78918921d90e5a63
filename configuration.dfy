/** The configuration shapes of the daemon: one idle level, a profile of three
    levels, and the whole configuration with its two profiles. Also the values
    of the built-in default configuration and the profile selector. */
module Configuration {

  /** Rust's `u64`: timeouts and the poll interval are unsigned 64-bit. */
  type U64 = n: nat | n < 0x1_0000_0000_0000_0000

  /** One idle tier: after `timeout` idle seconds run `command`; a timeout of 0 disables it. */
  datatype Level = Level(timeout: U64, command: string)

  /** A power profile: three tiers in fixed order. */
  datatype Levels = Levels(level1: Level, level2: Level, level3: Level)

  datatype Config = Config(
    ac: Levels,
    battery: Levels,
    checkInterval: U64,
    enableNotifications: bool,
    acPath: string,
    batteryPath: string)

  /** The profile that applies to a power state: battery profile on battery, AC profile otherwise. */
  function SelectProfile(cfg: Config, onBattery: bool): Levels
  {
    if onBattery then cfg.battery else cfg.ac
  }

  /** The command the default configuration runs at the first tier of both profiles. */
  const AwayNotice: string :=
    "notify-send -i /path/to/nonexistent/icon \"Hypraway\" -t 2100 \"You have been away\""

  /** The configuration written out when no configuration file exists, as it reads back. */
  const DefaultConfig: Config := Config(
    Levels(Level(600, AwayNotice), Level(1200, "hyprlock"), Level(0, "systemctl hibernate")),
    Levels(Level(300, AwayNotice), Level(600, "hyprlock"), Level(900, "systemctl hibernate")),
    5,
    true,
    "/sys/class/power_supply/AC0/online",
    "/sys/class/power_supply/BAT0/status")

  /** The documented default values. */
  lemma DefaultConfigValues()
    ensures DefaultConfig.checkInterval == 5 && DefaultConfig.enableNotifications
    ensures DefaultConfig.ac.level2.timeout == 1200 && DefaultConfig.ac.level3.timeout == 0
    ensures DefaultConfig.battery.level2 == Level(600, "hyprlock")
    ensures DefaultConfig.battery.level3 == Level(900, "systemctl hibernate")
    ensures SelectProfile(DefaultConfig, false).level1.timeout == 600
    ensures SelectProfile(DefaultConfig, true).level1.timeout == 300
  {
  }
}
