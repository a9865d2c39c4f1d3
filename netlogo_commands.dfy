/** What the two NetLogo components share: the `set <variable> <value>`
    command text and the status line. */
module NetLogoCommands {
  import opened Wrappers
  import Decimal

  const UpdateDisplay: string := "update-display"

  /** `set <variable> ${value}`: reading the command back for that variable
      gives exactly the value. */
  function SetCommand(variable: string, value: int): (r: string)
    ensures ParseSetCommand(variable, r) == Some(value)
  {
    var prefix := "set " + variable + " ";
    var digits := Decimal.IntToString(value);
    Decimal.IntToStringRoundTrip(value);
    assert (prefix + digits)[..|prefix|] == prefix;
    assert (prefix + digits)[|prefix|..] == digits;
    prefix + digits
  }

  /** What a model reading `set <variable> <n>` assigns to the variable. */
  function ParseSetCommand(variable: string, command: string): Option<int> {
    var prefix := "set " + variable + " ";
    if |prefix| <= |command| && command[..|prefix|] == prefix
    then Decimal.ParseInt(command[|prefix|..])
    else None
  }

  /** The "Model Status" line. */
  function StatusText(isLoaded: bool, isRunning: bool): (s: string)
    ensures s == "Running" <==> isLoaded && isRunning
    ensures s == "Ready" <==> isLoaded && !isRunning
    ensures s == "Loading..." <==> !isLoaded
  {
    if isLoaded then (if isRunning then "Running" else "Ready") else "Loading..."
  }
}
