/** The log-level whitelist check run at start-up on the `-log-level` flag. */
module LogLevels {
  import opened Wrappers

  /** logrus.Level values of the levels the receiver accepts. */
  const ErrorLevel: nat := 2
  const WarnLevel: nat := 3
  const InfoLevel: nat := 4
  const DebugLevel: nat := 5

  /** A Go `[4]string` array value. */
  type LevelList = s: seq<string> | |s| == 4 witness ["", "", "", ""]

  /** The allowed log levels. */
  const LogLevelsList: LevelList := ["debug", "info", "warn", "error"]

  const WrongLevelPrefix: string := "There was a wrong log level defined: "

  /** `logrus.ParseLevel`, restricted to the four names the whitelist holds:
      the level and no error for those, level 0 and an error for anything else. */
  function ParseLevel(name: string): (r: (nat, Option<string>))
    ensures r.1.None? <==> name in {"debug", "info", "warn", "error"}
    ensures r.1.Some? ==> r.0 == 0
  {
    if name == "error" then (ErrorLevel, None)
    else if name == "warn" then (WarnLevel, None)
    else if name == "info" then (InfoLevel, None)
    else if name == "debug" then (DebugLevel, None)
    else (0, Some("not a valid logrus Level: \"" + name + "\""))
  }

  /** Scans the list for `value`; on the first match the name is handed to the
      level parser, otherwise the result is level 0 and the wrong-level error. */
  method LogLevelContains(slice: LevelList, value: string) returns (level: nat, err: Option<string>)
    ensures value in slice ==> (level, err) == ParseLevel(value)
    ensures value !in slice ==> level == 0 && err == Some(WrongLevelPrefix + value)
    ensures slice == LogLevelsList ==> (err.None? <==> value in {"debug", "info", "warn", "error"})
  {
    for i := 0 to |slice|
      invariant value !in slice[..i]
    {
      if slice[i] == value {
        var parsed := ParseLevel(value);
        level, err := parsed.0, parsed.1;
        return;
      }
    }
    return 0, Some(WrongLevelPrefix + value);
  }
}
