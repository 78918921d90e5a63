/** Classification of the power source from the contents of the two status files. */
module PowerSource {
  import opened Seqs

  datatype Option<T> = None | Some(value: T)

  /** What one poll read: the contents of the AC file and of the battery file,
      `None` where the read failed. */
  datatype Reading = Reading(ac: Option<string>, battery: Option<string>)

  /** Unicode `White_Space`, the set Rust's `str::trim` strips. */
  predicate IsWhitespace(c: char)
  {
    || '\t' <= c <= '\r' || c == ' ' || c == '\U{85}' || c == '\U{A0}' || c == '\U{1680}'
    || '\U{2000}' <= c <= '\U{200A}' || c == '\U{2028}' || c == '\U{2029}' || c == '\U{202F}'
    || c == '\U{205F}' || c == '\U{3000}'
  }

  predicate AllWhitespace(s: string)
  {
    forall k :: 0 <= k < |s| ==> IsWhitespace(s[k])
  }

  /** `s` without its leading whitespace. */
  function TrimStart(s: string): string
  {
    if s != [] && IsWhitespace(s[0]) then TrimStart(s[1..]) else s
  }

  /** `s` without its trailing whitespace. */
  function TrimEnd(s: string): string
  {
    if s != [] && IsWhitespace(s[|s| - 1]) then TrimEnd(s[..|s| - 1]) else s
  }

  /** `s` without leading and trailing whitespace. */
  function Trim(s: string): string
  {
    TrimEnd(TrimStart(s))
  }

  /** `TrimStart` drops a whitespace prefix and keeps a suffix that does not start with whitespace. */
  lemma {:induction false} TrimStartShape(s: string)
    ensures var r := TrimStart(s);
      && |r| <= |s| && r == s[|s| - |r|..] && AllWhitespace(s[..|s| - |r|])
      && (r == [] || !IsWhitespace(r[0]))
  {
    if s != [] && IsWhitespace(s[0]) {
      TrimStartShape(s[1..]);
      var r := TrimStart(s);
      assert s[1..][|s| - 1 - |r|..] == s[|s| - |r|..];
      assert s[..|s| - |r|] == [s[0]] + s[1..][..|s| - 1 - |r|];
    }
  }

  /** `TrimEnd` drops a whitespace suffix and keeps a prefix that does not end with whitespace. */
  lemma {:induction false} TrimEndShape(s: string)
    ensures var r := TrimEnd(s);
      && |r| <= |s| && r == s[..|r|] && AllWhitespace(s[|r|..])
      && (r == [] || !IsWhitespace(r[|r| - 1]))
  {
    if s != [] && IsWhitespace(s[|s| - 1]) {
      TrimEndShape(s[..|s| - 1]);
      var r := TrimEnd(s);
      assert s[..|s| - 1][..|r|] == s[..|r|];
      assert s[|r|..] == s[..|s| - 1][|r|..] + [s[|s| - 1]];
    }
  }

  /** Trimming keeps a contiguous middle part: what it drops on either side is whitespace,
      and what it keeps neither starts nor ends with whitespace. */
  lemma TrimIsMiddle(s: string)
    ensures var i := |s| - |TrimStart(s)|; var j := i + |Trim(s)|;
      && 0 <= i <= j <= |s| && s == s[..i] + Trim(s) + s[j..]
      && AllWhitespace(s[..i]) && AllWhitespace(s[j..])
    ensures Trim(s) == [] || (!IsWhitespace(Trim(s)[0]) && !IsWhitespace(Trim(s)[|Trim(s)| - 1]))
  {
    TrimSplits(s);
    TrimEnds(s);
  }

  lemma TrimSplits(s: string)
    ensures var i := |s| - |TrimStart(s)|; var j := i + |Trim(s)|;
      && 0 <= i <= j <= |s| && s == s[..i] + Trim(s) + s[j..]
      && AllWhitespace(s[..i]) && AllWhitespace(s[j..])
  {
    var t, u := TrimStart(s), Trim(s);
    var i := |s| - |t|;
    assert t == s[i..] && AllWhitespace(s[..i]) by {
      TrimStartShape(s);
    }
    assert |u| <= |t| && u == t[..|u|] && AllWhitespace(t[|u|..]) by {
      TrimEndShape(t);
    }
    var j := i + |u|;
    assert t[|u|..] == s[j..];
    assert s == s[..i] + u + s[j..] by {
      assert t == u + t[|u|..];
      assert s == s[..i] + t;
      ConcatAssoc(s[..i], u, s[j..]);
    }
  }

  lemma TrimEnds(s: string)
    ensures Trim(s) == [] || (!IsWhitespace(Trim(s)[0]) && !IsWhitespace(Trim(s)[|Trim(s)| - 1]))
  {
    var t := TrimStart(s);
    TrimStartShape(s);
    var u := TrimEnd(t);
    TrimEndShape(t);
    if u != [] {
      assert u[0] == t[0];
    }
  }

  /** Whitespace around a core that neither starts nor ends with whitespace is exactly what trimming removes. */
  lemma {:induction false} TrimPadded(pre: string, core: string, post: string)
    requires AllWhitespace(pre) && AllWhitespace(post)
    requires core == [] || (!IsWhitespace(core[0]) && !IsWhitespace(core[|core| - 1]))
    ensures Trim(pre + core + post) == core
  {
    if core == [] {
      var w := pre + post;
      assert pre + core + post == w + [];
      assert AllWhitespace(w) by {
        assert forall k :: 0 <= k < |w| ==> w[k] == if k < |pre| then pre[k] else post[k - |pre|];
      }
      TrimStartPadded(w, []);
    } else {
      TrimStartPadded(pre, core + post);
      assert pre + core + post == pre + (core + post);
      TrimEndPadded(core, post);
    }
  }

  lemma {:induction false} TrimStartPadded(pre: string, rest: string)
    requires AllWhitespace(pre)
    requires rest == [] || !IsWhitespace(rest[0])
    ensures TrimStart(pre + rest) == rest
  {
    if pre != [] {
      assert (pre + rest)[1..] == pre[1..] + rest;
      TrimStartPadded(pre[1..], rest);
    }
  }

  lemma {:induction false} TrimEndPadded(core: string, post: string)
    requires AllWhitespace(post)
    requires core == [] || !IsWhitespace(core[|core| - 1])
    requires core != [] || post == []
    ensures TrimEnd(core + post) == core
  {
    if post != [] {
      assert (core + post)[..|core + post| - 1] == core + post[..|post| - 1];
      TrimEndPadded(core, post[..|post| - 1]);
    } else {
      assert core + post == core;
    }
  }

  /** Trimming twice is trimming once. */
  lemma TrimIdempotent(s: string)
    ensures Trim(Trim(s)) == Trim(s)
  {
    TrimIsMiddle(s);
    var t := Trim(s);
    if t != [] {
      TrimPadded([], t, []);
      assert [] + t + [] == t;
    }
  }

  /** The AC file reports the adapter online. */
  predicate AcOnline(ac: Option<string>)
  {
    ac.Some? && Trim(ac.value) == "1"
  }

  /** The battery file reports the battery discharging. */
  predicate Discharging(battery: Option<string>)
  {
    battery.Some? && Trim(battery.value) == "Discharging"
  }

  /** Whether the machine runs on battery: an online AC adapter means AC; failing that,
      a discharging battery means battery; anything else defaults to AC. No read
      failure is an error. */
  function IsOnBattery(r: Reading): bool
  {
    if r.ac.Some? && Trim(r.ac.value) == "1" then false
    else if r.battery.Some? && Trim(r.battery.value) == "Discharging" then true
    else false
  }

  /** An online AC adapter decides for AC, whatever the battery file holds. */
  lemma AcOnlineMeansAc(r: Reading)
    requires AcOnline(r.ac)
    ensures !IsOnBattery(r)
  {
  }

  /** Without an online AC adapter a discharging battery decides for battery. */
  lemma DischargingMeansBattery(r: Reading)
    requires !AcOnline(r.ac) && Discharging(r.battery)
    ensures IsOnBattery(r)
  {
  }

  /** Exactly those two cases are battery; every other reading, unreadable files included, is AC. */
  lemma OnBatteryExactly(r: Reading)
    ensures IsOnBattery(r) <==> !AcOnline(r.ac) && Discharging(r.battery)
  {
  }

  /** Status files end with a newline and may carry surrounding blanks: the value still counts. */
  lemma {:induction false} PaddedValuesCount(pre: string, post: string, battery: Option<string>)
    requires AllWhitespace(pre) && AllWhitespace(post)
    ensures !IsOnBattery(Reading(Some(pre + "1" + post), battery))
    ensures IsOnBattery(Reading(None, Some(pre + "Discharging" + post)))
    ensures IsOnBattery(Reading(Some(pre + "0" + post), Some("Discharging\n")))
  {
    TrimPadded(pre, "1", post);
    TrimPadded(pre, "Discharging", post);
    TrimPadded(pre, "0", post);
    TrimPadded([], "Discharging", "\n");
    assert [] + "Discharging" + "\n" == "Discharging\n";
  }

  /** Typical sysfs contents. */
  lemma SysfsExamples()
    ensures !IsOnBattery(Reading(Some("1\n"), Some("Discharging\n")))
    ensures !IsOnBattery(Reading(Some("1\n"), Some("Charging\n")))
    ensures IsOnBattery(Reading(Some("0\n"), Some("Discharging\n")))
    ensures !IsOnBattery(Reading(Some("0\n"), Some("Charging\n")))
    ensures !IsOnBattery(Reading(None, None))
  {
    PaddedValuesCount([], "\n", Some("Discharging\n"));
    assert [] + "1" + "\n" == "1\n" && [] + "0" + "\n" == "0\n";
    TrimPadded([], "Charging", "\n");
    assert [] + "Charging" + "\n" == "Charging\n";
  }
}
