/** The severities a notification can carry and the first-character rule by
    which a configured level string selects one of them (`LogMessage`). */
module Levels {
  import opened Wrappers
  import opened Text

  /** The six `Log.*` calls of the host's logger. */
  datatype Severity = Verbose | Debug | Information | Warning | Error | Fatal

  /** The name of a severity as the level settings' help text spells it. */
  function Name(sev: Severity): string
  {
    match sev
    case Verbose => "Verbose"
    case Debug => "Debug"
    case Information => "Information"
    case Warning => "Warning"
    case Error => "Error"
    case Fatal => "Fatal"
  }

  /** The character that selects a severity: the first letter of its name, lower-cased. */
  function Initial(sev: Severity): char
  {
    LowerChar(Name(sev)[0])
  }

  /** A message written to the host's log at some severity. */
  datatype Notification = Notification(severity: Severity, message: string)

  /** The severity a (normalised) level string selects: only its first
      character is looked at, and a character that is not the initial of a
      severity selects nothing. The level must not be empty: its first
      character is read unconditionally. */
  function SeverityOf(level: string): (r: Option<Severity>)
    requires |level| > 0
    ensures forall sev :: r == Some(sev) <==> level[0] == Initial(sev)
    ensures r.None? <==> level[0] !in "vdiwef"
  {
    match level[0]
    case 'v' => Some(Verbose)
    case 'd' => Some(Debug)
    case 'i' => Some(Information)
    case 'w' => Some(Warning)
    case 'e' => Some(Error)
    case 'f' => Some(Fatal)
    case _ => None
  }

  /** Writes `message` at the severity `level` selects, or writes nothing
      when the level selects no severity. */
  function LogMessage(message: string, level: string): (r: Option<Notification>)
    requires |level| > 0
    ensures r.None? <==> level[0] !in "vdiwef"
    ensures r.Some? ==> r.value.message == message && level[0] == Initial(r.value.severity)
  {
    match SeverityOf(level)
    case None => None
    case Some(sev) => Some(Notification(sev, message))
  }

}
