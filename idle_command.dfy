/** The `swayidle` command line built from a power profile. */
module IdleCommand {
  import opened Configuration
  import opened Decimal
  import opened Seqs

  /** The name the command line starts with. */
  const Program: string := "swayidle"

  /** The clause a level contributes when it is enabled: ` timeout <seconds> '<command>'`.
      The command goes between single quotes as it is, without escaping. */
  function Clause(l: Level): string
  {
    " timeout " + NatToDecimal(l.timeout) + " '" + l.command + "'"
  }

  /** The three levels of a profile in their fixed order. */
  function Slots(p: Levels): seq<Level>
  {
    [p.level1, p.level2, p.level3]
  }

  /** The levels whose timeout is not zero, in their original order. */
  function Enabled(ls: seq<Level>): seq<Level>
  {
    if ls == [] then []
    else if ls[|ls| - 1].timeout > 0 then Enabled(ls[..|ls| - 1]) + [ls[|ls| - 1]]
    else Enabled(ls[..|ls| - 1])
  }

  /** The clauses of the given levels, concatenated in order. */
  function Clauses(ls: seq<Level>): string
  {
    if ls == [] then "" else Clauses(ls[..|ls| - 1]) + Clause(ls[|ls| - 1])
  }

  /** The command line of a profile: the program name followed by the clause of
      every enabled level, in level order. */
  function CommandSpec(p: Levels): string
  {
    Program + Clauses(Enabled(Slots(p)))
  }

  /** Builds the command line as the daemon does: start from the program name and
      append one clause per level whose timeout is positive. */
  method BuildCommand(p: Levels) returns (command: string)
    ensures command == CommandSpec(p)
  {
    command := "swayidle";
    var timeouts := [(p.level1.timeout, p.level1.command),
                     (p.level2.timeout, p.level2.command),
                     (p.level3.timeout, p.level3.command)];
    for k := 0 to |timeouts|
      invariant command == Program + Clauses(Enabled(Slots(p)[..k]))
    {
      var (timeout, cmd) := timeouts[k];
      ghost var done, l := Slots(p)[..k], Slots(p)[k];
      assert Slots(p)[..k + 1] == done + [l];
      EnabledSnoc(done, l);
      if timeout > 0 {
        var clause := " timeout " + NatToDecimal(timeout) + " '" + cmd + "'";
        assert clause == Clause(l);
        ClausesSnoc(Enabled(done), l);
        ConcatAssoc(Program, Clauses(Enabled(done)), clause);
        command := command + clause;
      }
    }
    assert Slots(p)[..3] == Slots(p);
  }

  lemma EnabledSnoc(ls: seq<Level>, l: Level)
    ensures Enabled(ls + [l]) == Enabled(ls) + if l.timeout > 0 then [l] else []
  {
    assert (ls + [l])[..|ls|] == ls;
  }

  lemma ClausesSnoc(ls: seq<Level>, l: Level)
    ensures Clauses(ls + [l]) == Clauses(ls) + Clause(l)
  {
    assert (ls + [l])[..|ls|] == ls;
  }

  /** The command line always starts with the program name. */
  lemma CommandStartsWithProgram(p: Levels)
    ensures |CommandSpec(p)| >= |Program| && CommandSpec(p)[..|Program|] == "swayidle"
  {
  }

  /** The clause a level contributes: its `Clause` when enabled, nothing otherwise. */
  function LevelClause(l: Level): string
  {
    if l.timeout > 0 then Clause(l) else ""
  }

  /** Clause by clause: level 1, then level 2, then level 3, each exactly when its timeout is positive. */
  lemma CommandClauses(p: Levels)
    ensures CommandSpec(p) == Program + LevelClause(p.level1) + LevelClause(p.level2) + LevelClause(p.level3)
  {
    var s := Slots(p);
    var c1, c2, c3 := LevelClause(p.level1), LevelClause(p.level2), LevelClause(p.level3);
    assert Clauses(Enabled(s[..1])) == c1 by {
      assert s[..1] == [] + [p.level1];
      EnabledSnoc([], p.level1);
      StepClauses([], p.level1);
      assert [] + c1 == c1;
    }
    assert Clauses(Enabled(s[..2])) == c1 + c2 by {
      assert s[..2] == s[..1] + [p.level2];
      EnabledSnoc(s[..1], p.level2);
      StepClauses(Enabled(s[..1]), p.level2);
    }
    assert Clauses(Enabled(s)) == c1 + c2 + c3 by {
      assert s == s[..2] + [p.level3];
      EnabledSnoc(s[..2], p.level3);
      StepClauses(Enabled(s[..2]), p.level3);
    }
    ConcatAssoc(Program, c1 + c2, c3);
    ConcatAssoc(Program, c1, c2);
  }

  /** One more level adds exactly its `LevelClause`. */
  lemma StepClauses(e: seq<Level>, l: Level)
    ensures Clauses(e + if l.timeout > 0 then [l] else []) == Clauses(e) + LevelClause(l)
  {
    if l.timeout > 0 {
      ClausesSnoc(e, l);
    } else {
      assert e + [] == e;
    }
  }

  /** A profile whose three timeouts are zero yields the bare program name. */
  lemma AllDisabledIsBare(p: Levels)
    requires p.level1.timeout == 0 && p.level2.timeout == 0 && p.level3.timeout == 0
    ensures CommandSpec(p) == "swayidle"
  {
    CommandClauses(p);
    assert Program + "" + "" + "" == Program;
  }

  /** Where the parts of a clause sit: the keyword, the digits, the opening quote,
      the command, the closing quote. */
  lemma ClauseLayout(l: Level)
    ensures var c, d := Clause(l), NatToDecimal(l.timeout);
      && |c| == 12 + |d| + |l.command|
      && c[..9] == " timeout " && c[9..9 + |d|] == d
      && c[9 + |d|] == ' ' && c[10 + |d|] == '\''
      && c[11 + |d|..|c| - 1] == l.command && c[|c| - 1] == '\''
  {
    var c, d := Clause(l), NatToDecimal(l.timeout);
    var a := " timeout " + d;
    assert c == (a + " '") + l.command + "'";
    assert c[..9] == a[..9];
    assert c[9..9 + |d|] == a[9..];
    assert c[11 + |d|..|c| - 1] == l.command;
  }

  /** A clause determines its level: the timeout and the command can be read back from it. */
  lemma ClauseDetermined(l: Level, m: Level)
    requires Clause(l) == Clause(m)
    ensures l == m
  {
    var dl, dm := NatToDecimal(l.timeout), NatToDecimal(m.timeout);
    ClauseLayout(l);
    ClauseLayout(m);
    if |dl| != |dm| {
      assert false;
    }
    DecimalInjective(l.timeout, m.timeout);
  }

  /** The default AC profile disables its third level, so its command has the
      600-second notice and the 1200-second lock and nothing else. */
  lemma DefaultAcCommand()
    ensures CommandSpec(DefaultConfig.ac)
      == "swayidle" + (" timeout " + "600" + " '" + AwayNotice + "'")
         + (" timeout " + "1200" + " '" + "hyprlock" + "'") + ""
  {
    CommandClauses(DefaultConfig.ac);
    DecimalExamples();
  }

  /** The default battery profile enables all three levels. */
  lemma DefaultBatteryCommand()
    ensures CommandSpec(DefaultConfig.battery)
      == "swayidle" + (" timeout " + "300" + " '" + AwayNotice + "'")
         + (" timeout " + "600" + " '" + "hyprlock" + "'")
         + (" timeout " + "900" + " '" + "systemctl hibernate" + "'")
  {
    CommandClauses(DefaultConfig.battery);
    DecimalExamples();
  }
}
